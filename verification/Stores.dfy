/** The receiver's store: worker records in memory and on disk, and the stub containers they own. */
module Stores {
  import opened Model
  import opened Desired
  import opened Resolve
  import opened Paths
  import opened Hosts
  import opened Reconciler
  import opened HashSkip
  import Ledger

  /** persistedRecordCompatible */
  predicate Compatible(r: Record)
  {
    r.snapshot.workerId != "" && Reachable(r.snapshot)
  }

  /** Every record is stored under its own worker id and is compatible. */
  ghost predicate RecordsOk(m: map<string, Record>)
  {
    forall w :: w in m ==> m[w].snapshot.workerId == w && Compatible(m[w])
  }

  /** Every stub container has a record of its worker on disk. */
  ghost predicate OrphanFree(d: Docker, disk: map<string, Record>)
  {
    forall n, w :: n in d && w != "" && Mine(d[n], w) ==> w in disk
  }

  /** Every stub container of `w` is on the list of containers that expiry of `w` will remove. */
  ghost predicate Listed(d: Docker, workers: map<string, Record>, w: string)
  {
    forall n :: n in d && Mine(d[n], w) ==> w in workers && n in workers[w].managed
  }

  /** What memory says about its workers' stub containers is complete. */
  ghost predicate Traced(d: Docker, workers: map<string, Record>)
  {
    forall w :: w in workers ==> Listed(d, workers, w)
  }

  /** The worker is in memory, or has no stub container. */
  ghost predicate Held(d: Docker, workers: map<string, Record>, w: string)
  {
    w in workers || NoneOf(d, w)
  }

  ghost predicate NoneOf(d: Docker, w: string)
  {
    forall n :: n in d ==> !Mine(d[n], w)
  }

  ghost predicate AllHeld(d: Docker, workers: map<string, Record>)
  {
    forall w :: w != "" ==> Held(d, workers, w)
  }

  function Entries(m: map<string, Record>): map<string, Ledger.Entry>
  {
    map w | w in m :: Ledger.Entry(m[w].snapshot.capturedAt, m[w].updatedAt)
  }

  function BooksOf(now: int, workers: map<string, Record>, disk: map<string, Record>): Ledger.Books
  {
    Ledger.Books(now, Entries(workers), Entries(disk))
  }

  lemma NobodyOwnsTwice(c: Container, w: string, w': string)
    requires Mine(c, w) && Mine(c, w')
    ensures w == w'
  {
  }

  /** A change that leaves other workers' containers alone leaves their lists complete. */
  lemma OthersStayListed(d: Docker, d': Docker, workers: map<string, Record>, workers': map<string, Record>, w: string)
    requires FrameOf(w, d, d')
    requires forall v :: v != w && v in workers ==> v in workers' && workers'[v] == workers[v]
    ensures forall v :: v != w && v in workers && Listed(d, workers, v) ==> Listed(d', workers', v)
    ensures forall v :: v != w && v in workers && Listed(d', workers', v) ==> Listed(d, workers, v)
    ensures w in workers' ==> forall v :: Held(d, workers, v) ==> Held(d', workers', v)
  {
    hide Mine;
    forall n, v | n in d' && v != w && Mine(d'[n], v) ensures n in d && d[n] == d'[n] {
      if Mine(d'[n], w) {
        NobodyOwnsTwice(d'[n], v, w);
      }
    }
    forall n, v | n in d && v != w && Mine(d[n], v) ensures n in d' && d[n] == d'[n] {
      if Mine(d[n], w) {
        NobodyOwnsTwice(d[n], v, w);
      }
    }
  }

  lemma FrameKeepsOrphanFree(d: Docker, d': Docker, disk: map<string, Record>, w: string)
    requires FrameOf(w, d, d') && OrphanFree(d, disk) && w in disk
    ensures OrphanFree(d', disk)
  {
    forall n, v | n in d' && v != "" && Mine(d'[n], v) ensures v in disk {
      if v != w {
        if Mine(d'[n], w) {
          NobodyOwnsTwice(d'[n], v, w);
        }
        assert n in d && d[n] == d'[n];
      }
    }
  }

  lemma MoreRecordsKeepOrphanFree(d: Docker, disk: map<string, Record>, disk': map<string, Record>)
    requires disk.Keys <= disk'.Keys
    ensures OrphanFree(d, disk) ==> OrphanFree(d, disk')
  {
  }

  function Wanted(cfg: Config, r: Record, imageId: string): map<string, StubSpec>
  {
    DesiredByName(cfg, r.snapshot, imageId)
  }

  /** The containers of the record's worker are exactly the wanted ones, and they are the ones listed. */
  ghost predicate SettledFor(cfg: Config, r: Record, managed: set<string>, imageId: string, d: Docker, d': Docker)
  {
    && managed == Wanted(cfg, r, imageId).Keys
    && Settles(cfg, r.snapshot.workerId, Wanted(cfg, r, imageId), imageId, d, d')
  }

  /** No name that a worker wants is taken by anybody else, or wanted by another worker. */
  ghost predicate Undisputed(cfg: Config, workers: map<string, Record>, imageId: string, d: Docker)
  {
    && (forall w :: w in workers ==> NamesFree(d, w, Wanted(cfg, workers[w], imageId)))
    && (forall v, w :: v in workers && w in workers && v != w ==>
          Wanted(cfg, workers[v], imageId).Keys !! Wanted(cfg, workers[w], imageId).Keys)
  }

  ghost function AllTriples(workers: map<string, Record>): set<Triple>
  {
    set w, t | w in workers && t in TriplesOf(workers[w].snapshot) :: t
  }

  /** Without digest collisions, workers never want the same name. */
  lemma WorkersWantApart(cfg: Config, workers: map<string, Record>, imageId: string, v: string, w: string)
    requires RecordsOk(workers) && NamedApart(cfg, AllTriples(workers))
    requires v in workers && w in workers && v != w
    ensures Wanted(cfg, workers[v], imageId).Keys !! Wanted(cfg, workers[w], imageId).Keys
  {
    hide StubName, NamedApart, IsStubOf, StubsOf;
    var a, b := workers[v].snapshot, workers[w].snapshot;
    if n :| n in Wanted(cfg, workers[v], imageId) && n in Wanted(cfg, workers[w], imageId) {
      var c, x := TripleOfStub(cfg, a, a.containers, imageId, Wanted(cfg, workers[v], imageId)[n]);
      var c', x' := TripleOfStub(cfg, b, b.containers, imageId, Wanted(cfg, workers[w], imageId)[n]);
      assert (v, c.id, x) in TriplesOf(a) && (w, c'.id, x') in TriplesOf(b);
      NameIdentifiesTriple(cfg, AllTriples(workers), (v, c.id, x), (w, c'.id, x'));
      assert false;
    }
  }

  /** So names are undisputed as soon as no foreign container has one of them. */
  lemma UndisputedIfFree(cfg: Config, workers: map<string, Record>, imageId: string, d: Docker)
    requires RecordsOk(workers) && NamedApart(cfg, AllTriples(workers))
    ensures Undisputed(cfg, workers, imageId, d) <==> forall w :: w in workers ==>
      NamesFree(d, w, Wanted(cfg, workers[w], imageId))
  {
    hide Wanted, NamesFree, NamedApart;
    forall v, w | v in workers && w in workers && v != w
      ensures Wanted(cfg, workers[v], imageId).Keys !! Wanted(cfg, workers[w], imageId).Keys
    {
      WorkersWantApart(cfg, workers, imageId, v, w);
    }
  }

  ghost predicate RestingFor(cfg: Config, r: Record, imageId: string, d: Docker)
  {
    AtRest(d, r.snapshot.workerId, Wanted(cfg, r, imageId))
  }

  lemma WantedSame(cfg: Config, r: Record, r': Record, imageId: string)
    requires r.snapshot == r'.snapshot
    ensures Wanted(cfg, r, imageId) == Wanted(cfg, r', imageId)
  {
  }

  /** Settling one worker disturbs no other. */
  lemma OthersRest(cfg: Config, imageId: string, workers: map<string, Record>, w: string, d: Docker, d': Docker)
    requires forall v :: v in workers ==> workers[v].snapshot.workerId == v
    requires w in workers && Undisputed(cfg, workers, imageId, d)
    requires Settles(cfg, w, Wanted(cfg, workers[w], imageId), imageId, d, d')
    ensures Undisputed(cfg, workers, imageId, d')
    ensures RestingFor(cfg, workers[w], imageId, d')
    ensures forall v :: v in workers && v != w && RestingFor(cfg, workers[v], imageId, d) ==>
      RestingFor(cfg, workers[v], imageId, d')
  {
    hide DesiredByName, Mine, Matches;
    SettledIsAtRest(cfg, workers[w].snapshot, imageId, d, d');
    forall v | v in workers && v != w ensures MineOf(d', v) == MineOf(d, v) {
      FrameElsewhere(w, v, d, d');
    }
    forall v, n | v in workers && n in d' && n in Wanted(cfg, workers[v], imageId) ensures Mine(d'[n], v) {
      if Mine(d'[n], w) {
        assert n in MineOf(d', w);
      }
    }
  }

  /** Every worker but those still to come is settled. */
  ghost predicate RestingBut(cfg: Config, workers: map<string, Record>, todo: set<string>, imageId: string, d: Docker)
  {
    && Undisputed(cfg, workers, imageId, d)
    && forall w :: w in workers && w !in todo ==> RestingFor(cfg, workers[w], imageId, d)
  }

  lemma NoneToCome(cfg: Config, workers: map<string, Record>, imageId: string, d: Docker)
    requires RestingBut(cfg, workers, {}, imageId, d)
    ensures forall w :: w in workers ==> RestingFor(cfg, workers[w], imageId, d)
  {
  }

  lemma RestStep(cfg: Config, imageId: string, workers: map<string, Record>, r: Record, w: string, todo: set<string>,
                 d: Docker, d': Docker)
    requires RecordsOk(workers) && w in workers && w !in todo && r.snapshot == workers[w].snapshot
    requires RestingBut(cfg, workers, todo + {w}, imageId, d)
    requires NamesFree(d, w, Wanted(cfg, r, imageId)) ==> SettledFor(cfg, r, r.managed, imageId, d, d')
    ensures RestingBut(cfg, workers, todo, imageId, d')
  {
    hide Settles, NamesFree, RestingFor, AtRest, DesiredByName, Compatible;
    WantedSame(cfg, r, workers[w], imageId);
    OthersRest(cfg, imageId, workers, w, d, d');
  }

  lemma FrameElsewhere(w: string, v: string, d: Docker, d': Docker)
    requires FrameOf(w, d, d') && v != w
    ensures MineOf(d', v) == MineOf(d, v)
  {
  }

  class Store {
    const host: Host
    const cfg: Config
    const ttl: int
    const snapshotHash: Snapshot -> string
    var workers: map<string, Record>

    constructor (host: Host, cfg: Config, ttl: int, snapshotHash: Snapshot -> string)
      ensures this.host == host && this.cfg == cfg && this.ttl == ttl && this.snapshotHash == snapshotHash
      ensures workers == map[]
    {
      this.host, this.cfg, this.ttl, this.snapshotHash := host, cfg, ttl, snapshotHash;
      workers := map[];
    }

    ghost predicate Valid()
      reads this, host
    {
      host.Valid() && RecordsOk(workers) && RecordsOk(host.disk)
    }

    /** What holds of the durable state at every moment, also in the middle of an operation. */
    ghost predicate Durable()
      reads this, host
    {
      OrphanFree(host.docker, host.disk)
    }

    /** What holds between operations while the receiver is alive. */
    ghost predicate Tracked()
      reads this, host
    {
      OrphanFree(host.docker, host.disk) && Traced(host.docker, workers)
    }

    /** No other worker's record is in the file of `w`. */
    ghost predicate Single(w: string)
      reads this, host
    {
      Alone(host.dir, host.disk, w)
    }

    /** All records have files of their own. */
    ghost predicate Separate()
      reads this, host
    {
      Apart(host.dir, workers.Keys + host.disk.Keys)
    }

    /** A post of `w` cannot lose sight of its containers. */
    ghost predicate Recordable(w: string)
      reads this, host
    {
      host.trust(WriteFile).Sure? || Held(host.docker, workers, w)
    }

    /** Every stub container is on some list in memory. */
    ghost predicate Sighted()
      reads this, host
    {
      Traced(host.docker, workers) && AllHeld(host.docker, workers)
    }

    function Books(): Ledger.Books
      reads this, host
    {
      BooksOf(host.now, workers, host.disk)
    }

    /** Upsert will go past its checks. */
    predicate Acceptable(s: Snapshot)
      reads this
    {
      !Refused(s) && (s.workerId in workers ==> s.capturedAt > workers[s.workerId].snapshot.capturedAt)
    }

    method Upsert(s: Snapshot) returns (ok: bool, managed: set<string>)
      requires Valid()
      modifies this`workers, host`alive, host`now, host`disk, host`docker, host`nextId, host`changes
      ensures Valid() && (host.alive ==> old(host.alive)) && host.now >= old(host.now)
      ensures FrameOf(s.workerId, old(host.docker), host.docker)
      ensures old(Durable() && Single(s.workerId)) ==> Durable()
      ensures !old(Acceptable(s)) ==> !ok && unchanged(this) && unchanged(host)
      ensures old(Acceptable(s)) ==> Installed(host.dir, s.workerId, old(workers), workers, old(host.disk), host.disk)
      ensures old(Acceptable(s)) && host.alive && host.trust(WriteFile).Sure? ==>
        s.workerId in host.disk && host.disk == Written(host.dir, old(host.disk), s.workerId, host.disk[s.workerId])
      ensures old(Acceptable(s)) ==>
        && workers[s.workerId].snapshot == Validated(s).(hash := workers[s.workerId].snapshot.hash)
        && workers[s.workerId].snapshot.hash == if s.hash == "" then snapshotHash(Validated(s)) else s.hash
      ensures old(Acceptable(s) && Single(s.workerId)) ==>
        Ledger.RecordedAfterGate(old(Books()), Books(), s.workerId, s.capturedAt, ok)
      ensures old(Acceptable(s)) ==>
        OldOrMade(cfg, s.workerId, Wanted(cfg, workers[s.workerId], host.imageId), old(host.docker), host.docker)
      ensures ok ==> s.workerId in host.disk && host.disk[s.workerId] == workers[s.workerId]
      ensures ok ==> workers[s.workerId].managed == managed
      ensures host.alive && Calm(host.trust) && old(Traced(host.docker, workers) && Recordable(s.workerId)) ==>
        Traced(host.docker, workers)
      ensures old(Acceptable(s)) ==>
        InstallOutcome(cfg, host.trust, host.alive, host.imageId, workers[s.workerId], ok, managed, old(workers),
                       workers,
                       old(host.docker), host.docker)
    {
      hide FrameOf, OrphanFree, Traced, Held, Calm, Clean, Refused, Wanted, OldOrMade, Installed, InstallOutcome;
      hide Written, Alone;
      var issues, cleaned := ValidateSnapshot(s);
      var fatal := HasSnapshotIssue(issues);
      if cleaned.workerId == "" || fatal {
        NotRefused(s);
        FrameOfNothing(s.workerId, host.docker);
        return false, {};
      }
      NotRefused(s);
      var w := cleaned.workerId;
      if w in workers && cleaned.capturedAt <= workers[w].snapshot.capturedAt {
        FrameOfNothing(w, host.docker);
        return false, {};
      }
      if cleaned.hash == "" {
        cleaned := cleaned.(hash := snapshotHash(cleaned));
      }
      ok, managed := Install(cleaned);
    }

    /** The second half of Upsert: the record goes to disk before Docker is touched, and again with
        the new list of containers. */
    method Install(s: Snapshot) returns (ok: bool, managed: set<string>)
      requires Valid() && s.workerId != "" && Reachable(s)
      requires s.workerId in workers ==> s.capturedAt > workers[s.workerId].snapshot.capturedAt
      modifies this`workers, host`alive, host`now, host`disk, host`docker, host`nextId, host`changes
      ensures Valid() && (host.alive ==> old(host.alive)) && host.now >= old(host.now)
      ensures FrameOf(s.workerId, old(host.docker), host.docker)
      ensures old(Durable() && Single(s.workerId)) ==> Durable()
      ensures Installed(host.dir, s.workerId, old(workers), workers, old(host.disk), host.disk)
      ensures host.alive && host.trust(WriteFile).Sure? ==>
        s.workerId in host.disk && host.disk == Written(host.dir, old(host.disk), s.workerId, host.disk[s.workerId])
      ensures workers[s.workerId].snapshot == s
      ensures old(Single(s.workerId)) ==>
        Ledger.RecordedAfterGate(old(Books()), Books(), s.workerId, s.capturedAt, ok)
      ensures OldOrMade(cfg, s.workerId, Wanted(cfg, workers[s.workerId], host.imageId), old(host.docker), host.docker)
      ensures ok ==> s.workerId in host.disk && host.disk[s.workerId] == workers[s.workerId]
      ensures ok ==> workers[s.workerId].managed == managed
      ensures host.alive && Calm(host.trust) && old(Traced(host.docker, workers) && Recordable(s.workerId)) ==>
        Traced(host.docker, workers)
      ensures InstallOutcome(cfg, host.trust, host.alive, host.imageId, workers[s.workerId], ok, managed,
                             old(workers), workers,
                             old(host.docker), host.docker)
    {
      hide FrameOf, OrphanFree, Calm, BooksOf, Ledger.RecordedAfterGate, MineOf, UniqueIds, RecordsOk;
      hide Compatible, Reachable;
      hide RefreshOutcome, InstallOutcome, Wanted, Traced, Held, OldOrMade;
      hide Written, Alone;
      var w := s.workerId;
      ghost var d, before, disk := host.docker, workers, host.disk;
      ghost var single := Single(w);
      FrameOfNothing(w, d);
      var t := host.Now();
      var record := Record(s, t, if w in workers then workers[w].managed else {});
      workers := workers[w := record];
      RecordsStayOk(before, record);
      WrittenStaysOk(host.dir, disk, record);
      var persisted := host.WriteFile(w, record);
      ListKept(d, before, workers, w);
      if !persisted {
        NotPersisted(cfg, host.trust, host.alive, host.imageId, record, before, workers, d);
        if single {
          InstalledAlone(host.dir, old(host.now), host.now, d, d, before, workers, disk, host.disk, w, false);
        }
        return false, {};
      }
      ok, managed := Refresh(s);
      RecordsStayOk(before, workers[w]);
      WrittenStaysOk(host.dir, disk, workers[w]);
      WrittenTwice(host.dir, disk, w, record, workers[w]);
      RefreshLists(d, host.docker, before, workers, w);
      Refreshed(cfg, host.trust, host.alive, host.imageId, workers[w], ok, managed, before, workers, d, host.docker);
      if single {
        InstalledAlone(host.dir, old(host.now), host.now, d, host.docker, before, workers, disk, host.disk, w, ok);
      }
    }

    /** Reconcile, then store and persist the new list of containers. */
    method Refresh(s: Snapshot) returns (ok: bool, managed: set<string>)
      requires host.Valid() && s.workerId != "" && Reachable(s)
      modifies this`workers, host`alive, host`now, host`disk, host`docker, host`nextId, host`changes
      ensures host.Valid() && (host.alive ==> old(host.alive)) && host.now >= old(host.now)
      ensures FrameOf(s.workerId, old(host.docker), host.docker)
      ensures s.workerId in workers && workers == old(workers)[s.workerId := workers[s.workerId]]
      ensures workers[s.workerId].snapshot == s && workers[s.workerId].managed == managed
      ensures old(host.now) <= workers[s.workerId].updatedAt <= host.now
      ensures host.disk == old(host.disk)
              || host.disk == Written(host.dir, old(host.disk), s.workerId, workers[s.workerId])
      ensures ok || (host.alive && host.trust(WriteFile).Sure?) ==>
        host.disk == Written(host.dir, old(host.disk), s.workerId, workers[s.workerId])
      ensures OldOrMade(cfg, s.workerId, Wanted(cfg, workers[s.workerId], host.imageId), old(host.docker), host.docker)
      ensures RefreshOutcome(cfg, host.trust, host.alive, host.imageId, workers[s.workerId], ok, managed,
                             old(host.docker), host.docker)
    {
      hide FrameOf, Calm, MineOf, UniqueIds, OldOrMade, AtRest, Settles, NamesFree, DesiredByName, Written, Stands;
      var failed;
      managed, failed := Reconcile(host, cfg, s);
      var t := host.Now();
      var record := Record(s, t, managed);
      workers := workers[s.workerId := record];
      var persisted := host.WriteFile(s.workerId, record);
      ok := persisted && !(failed && managed == {});
    }

    /** removeManagedContainers: of the listed names, those that still belong to the worker. */
    method RemoveManaged(w: string, names: set<string>)
      requires host.Valid()
      modifies host`alive, host`docker, host`changes
      ensures host.Valid() && (host.alive ==> old(host.alive))
      ensures RemovedAtMost(old(host.docker), host.docker, w, names)
      ensures host.alive && Clearing(host.trust) ==> forall n :: n in names && n in host.docker ==>
        !Mine(host.docker[n], w)
      ensures Stuck(host.trust) ==> host.docker == old(host.docker)
      ensures !old(host.alive) ==> host.docker == old(host.docker)
    {
      hide Without, Connected, Started, UniqueIds, Ids, Mine;
      var found := host.ListManaged(w);
      if found.None? {
        return;
      }
      ghost var d, listed := host.docker, host.alive;
      var existing, todo := found.value, names;
      while todo != {}
        invariant host.Valid() && (host.alive ==> listed)
        invariant todo <= names
        invariant RemovedAtMost(d, host.docker, w, names)
        invariant forall n :: n in todo ==> Same(d, host.docker, n)
        invariant host.alive && host.trust(RemoveContainer).Sure? ==>
          forall n :: n in names && n !in todo && n in existing ==> n !in host.docker
        invariant !old(host.alive) || Stuck(host.trust) ==> host.docker == d
        decreases todo
      {
        var n :| n in todo;
        todo := todo - {n};
        if n in existing {
          assert Same(d, host.docker, n) && n in MineOf(d, w);
          ById(host.docker, host.nextId, n, "");
          var _ := host.Remove(existing[n].id);
        }
      }
      if host.alive && Clearing(host.trust) {
        forall n | n in names && n in host.docker ensures !Mine(host.docker[n], w) {
          assert n in d && host.docker[n] == d[n];
          assert Mine(d[n], w) ==> n in MineOf(d, w);
        }
      }
    }

    /** One expired worker: forget it, remove its containers, then delete its file. */
    method Expire(w: string)
      requires Valid() && w in workers
      modifies this`workers, host`alive, host`docker, host`disk, host`changes
      ensures Valid() && (host.alive ==> old(host.alive))
      ensures workers == old(workers) - {w}
      ensures host.disk == old(host.disk) || host.disk == Unlinked(host.dir, old(host.disk), w)
      ensures RemovedAtMost(old(host.docker), host.docker, w, old(workers)[w].managed)
      ensures Clearing(host.trust) && old(Durable() && Single(w) && Listed(host.docker, workers, w)) ==> Durable()
      ensures host.alive && Clearing(host.trust) ==> Cleared(host.docker, w, old(workers)[w].managed)
      ensures Stuck(host.trust) ==> host.docker == old(host.docker)
      ensures !old(host.alive) ==> host.docker == old(host.docker) && host.disk == old(host.disk)
      ensures host.alive && host.trust(Call.DeleteFile).Sure? ==> w !in host.disk
    {
      hide UniqueIds, Mine;
      var record := workers[w];
      workers := workers - {w};
      RemoveManaged(record.snapshot.workerId, record.managed);
      ghost var alive := host.alive;
      var _ := host.DeleteFile(w);
      if Clearing(host.trust) && old(Durable() && Single(w) && Listed(host.docker, workers, w)) {
        AloneWrites(host.dir, old(host.disk), w, record);
        ExpireKeeps(old(host.docker), host.docker, old(workers), old(host.disk), host.disk, w, alive);
      }
    }

    /** RemoveExpired, with the set of workers it forgot. */
    method RemoveExpired(at: int, ghost p: Ledger.Policy) returns (ghost gone: set<string>)
      requires Valid() && at <= host.now && p.ttl == ttl
      modifies this`workers, host`alive, host`docker, host`disk, host`changes
      ensures Valid() && (host.alive ==> old(host.alive))
      ensures ttl <= 0 ==> gone == {} && unchanged(this) && unchanged(host)
      ensures workers == old(workers) - gone && gone <= old(workers).Keys
      ensures ttl > 0 && old(Separate()) ==> Ledger.Expired(p, old(Books()), Books(), at, gone)
      ensures forall w :: w in host.disk ==> w in old(host.disk) && host.disk[w] == old(host.disk)[w]
      ensures ttl > 0 ==> forall w :: w in old(workers) ==> (w in gone <==> at - old(workers)[w].updatedAt > ttl)
      ensures RemovedOnly(old(host.docker), host.docker, old(workers), gone)
      ensures old(Traced(host.docker, workers)) ==> Traced(host.docker, workers)
      ensures Clearing(host.trust) && old(Tracked() && Separate()) ==> Durable()
      ensures Stuck(host.trust) ==> host.docker == old(host.docker)
      ensures host.alive && host.trust(Call.DeleteFile).Sure? ==> gone !! host.disk.Keys
      ensures host.alive && Clearing(host.trust) && old(Sighted()) ==>
        AllHeld(host.docker, workers)
      ensures host.alive && Clearing(host.trust) && host.trust(Call.DeleteFile).Sure?
              && old(Durable() && Separate()) ==>
        (Durable() <==> forall w :: w in gone ==> Listed(old(host.docker), old(workers), w))
    {
      hide UniqueIds, Compatible, Mine, OrphanFree, Entries, RecordsOk, Clearing, Stuck, RemovedOnly;
      hide RemovedAtMost, Listed;
      hide Cleared, AllCleared, Ledger.Expired, Traced, AllHeld;
      gone := {};
      ShrunkNot(host.dir, host.docker, workers, host.disk);
      if ttl <= 0 {
        return;
      }
      ghost var d, first, disk := host.docker, workers, host.disk;
      ghost var separate := Separate();
      if separate {
        ApartIsAlone(host.dir, disk, first.Keys + disk.Keys);
      }
      hide Shrunk, Alone, Apart, Unlinked;
      var todo := workers.Keys;
      while todo != {}
        invariant Valid() && (host.alive ==> old(host.alive))
        invariant todo <= workers.Keys && gone <= first.Keys - todo
        invariant workers == first - gone
        invariant forall w :: w in first && w !in todo ==> (w in gone <==> at - first[w].updatedAt > ttl)
        invariant Shrunk(host.dir, d, host.docker, first, disk, host.disk, gone) && host.disk.Keys <= disk.Keys
        invariant separate ==> forall v :: v in first ==> Single(v)
        invariant Clearing(host.trust) && old(Tracked()) && separate ==> Durable()
        invariant Stuck(host.trust) ==> host.docker == d
        invariant host.alive && host.trust(Call.DeleteFile).Sure? ==> gone !! host.disk.Keys
        invariant host.alive && Clearing(host.trust) ==> AllCleared(host.docker, first, gone)
        decreases todo
      {
        var w :| w in todo;
        todo := todo - {w};
        if at - workers[w].updatedAt > ttl {
          ghost var before, disk1 := host.docker, host.disk;
          Expire(w);
          ShrunkStep(host.dir, d, before, host.docker, first, disk, disk1, host.disk, gone, w);
          StaysAlone(host.dir, disk1, host.disk, w);
          gone := gone + {w};
        }
      }
      ShrunkMeans(host.dir, d, host.docker, first, disk, host.disk, gone);
      TracedSubset(d, host.docker, first, workers, gone);
      if separate {
        ExpiredRecords(p, old(host.now), host.dir, d, host.docker, first, disk, workers, host.disk, at, gone);
      }
      if host.alive && Clearing(host.trust) {
        HeldAfterExpiry(d, host.docker, first, workers, gone);
        if host.trust(Call.DeleteFile).Sure? && OrphanFree(d, disk) && separate {
          OrphansAfterExpiry(host.dir, d, host.docker, first, disk, host.disk, gone);
        }
      }
    }

    /** reconcileAll over the records that were loaded. */
    method ReconcileAll(ghost known: set<Preimage>)
      requires host.Valid() && RecordsOk(workers)
      modifies this`workers, host`alive, host`now, host`disk, host`docker, host`nextId, host`changes
      ensures host.Valid() && (host.alive ==> old(host.alive)) && host.now >= old(host.now)
      ensures RecordsOk(workers) && SameSnapshots(old(workers), workers)
      ensures Later(old(workers), workers, old(host.now), host.now)
      ensures OthersKept(old(host.docker), host.docker, workers.Keys)
      ensures LoadedFrom(old(workers), old(host.disk)) ==>
        Fits(workers, old(host.disk), host.disk, old(host.now), host.now)
      ensures LoadedFrom(old(workers), old(host.disk)) && old(Durable()) ==> Durable()
      ensures host.alive && Calm(host.trust) ==> Traced(host.docker, workers)
      ensures host.alive && Calm(host.trust) ==>
        AllRenewed(cfg, host.imageId, old(workers), workers, host.docker, old(host.now))
      ensures host.alive && host.trust(WriteFile).Sure? && old(InSync(workers, host.disk)) ==>
        InSync(workers, host.disk)
      ensures workers == map[] ==> host.docker == old(host.docker)
      ensures AllGenuine(cfg, known, old(host.docker)) ==>
        AllGenuine(cfg, known + HashedAll(cfg, workers, host.imageId), host.docker)
      ensures host.alive && Flawless(host.trust) && Undisputed(cfg, old(workers), host.imageId, old(host.docker)) ==>
        forall w :: w in workers ==> RestingFor(cfg, old(workers)[w], host.imageId, host.docker)
    {
      hide UniqueIds, Mine, Calm, OldOrMade, AtRest, Settles, NamesFree, DesiredByName, OrphanFree, FrameOf;
      hide OthersKept, Reachable, MineOf;
      hide LoadedFrom, Flawless, Undisputed, SettledFor, Wanted, RestingFor, Listed, RecordsOk, Compatible;
      hide SameSnapshots, Later;
      hide AllGenuine, HashedAll, Written, Apart, Fits;
      hide InSync, AllRenewed, Rounded, Traced;
      ghost var first, disk, d0, start := workers, host.disk, host.docker, host.now;
      ProgressNot(cfg, known, host.imageId, host.trust, first, disk, d0, start);
      hide Progress;
      var todo := workers.Keys;
      while todo != {}
        invariant host.Valid() && (host.alive ==> old(host.alive)) && host.now >= start
        invariant RecordsOk(workers) && todo <= workers.Keys == first.Keys
        invariant forall v :: v in todo ==> workers[v] == first[v]
        invariant Progress(cfg, known, host.imageId, host.trust, host.alive, first, workers, todo, d0, host.docker,
                           disk, host.disk, start, host.now)
        invariant first == map[] ==> host.docker == d0
        decreases todo
      {
        var w :| w in todo;
        todo := todo - {w};
        ghost var d, m, f, t, alive := host.docker, workers, host.disk, host.now, host.alive;
        ghost var left, failed := RefreshLoaded(w);
        ProgressStep(cfg, known, host.imageId, host.dir, host.trust, alive, host.alive, first, m, workers, todo, w, d0,
                     d, host.docker, disk, f, host.disk, start, t, host.now, left, failed);
      }
      ProgressMeans(cfg, known, host.imageId, host.trust, host.alive, first, workers, d0, host.docker, disk, host.disk,
                    start, host.now);
    }

    /** One round of reconcileAll: a run that failed to leave any container keeps the old record. */
    method RefreshLoaded(w: string) returns (ghost left: set<string>, ghost failed: bool)
      requires host.Valid() && RecordsOk(workers) && w in workers
      modifies this`workers, host`alive, host`now, host`disk, host`docker, host`nextId, host`changes
      ensures host.Valid() && (host.alive ==> old(host.alive)) && host.now >= old(host.now)
      ensures RecordsOk(workers) && w in workers && workers == old(workers)[w := workers[w]]
      ensures workers[w].snapshot == old(workers)[w].snapshot
      ensures Rounded(cfg, host.imageId, host.dir, host.trust, host.alive, old(workers), workers, w, old(host.docker),
                      host.docker, old(host.disk), host.disk, old(host.now), host.now, left, failed)
    {
      hide UniqueIds, Mine, Calm, OldOrMade, AtRest, Settles, NamesFree, DesiredByName, OrphanFree, FrameOf;
      hide MineOf, Listed, ListsKept, Written, Alone, Apart, Stands;
      var record := workers[w];
      assert Reachable(record.snapshot) && w == record.snapshot.workerId != "";
      hide Reachable, RecordsOk, SameSnapshots, Later, LoadedFrom, Fits, Flawless, Compatible;
      ghost var d := host.docker;
      ghost var disk := host.disk;
      RestampOk(workers, disk, disk, w, record, host.now, host.now);
      var managed, broken := Reconcile(host, cfg, record.snapshot);
      left, failed := managed, broken;
      if !(broken && managed == {}) {
        Restamp(w, managed);
      }
      StillDurable(host.dir, d, host.docker, disk, host.disk, w, workers[w]);
      WantedSame(cfg, workers[w], record, host.imageId);
      if host.alive && Calm(host.trust) {
        OthersListed(d, host.docker, old(workers), workers, w, managed);
      }
    }

    /** The new list of containers goes to memory and to disk. */
    method Restamp(w: string, managed: set<string>)
      requires RecordsOk(workers) && w in workers && Apart(host.dir, host.disk.Keys)
      modifies this`workers, host`alive, host`now, host`disk
      ensures Apart(host.dir, host.disk.Keys)
      ensures (host.alive ==> old(host.alive)) && host.now >= old(host.now)
      ensures w in workers && workers == old(workers)[w := workers[w]] && workers[w].managed == managed
      ensures workers[w].updatedAt >= old(host.now)
      ensures host.alive && host.trust(WriteFile).Sure? ==>
        host.disk == Written(host.dir, old(host.disk), w, workers[w])
      ensures workers[w].snapshot == old(workers)[w].snapshot
      ensures RecordsOk(workers) && SameSnapshots(old(workers), workers)
      ensures Later(old(workers), workers, old(host.now), host.now)
      ensures host.disk == old(host.disk) || host.disk == Written(host.dir, old(host.disk), w, workers[w])
      ensures LoadedFrom(old(workers), old(host.disk)) ==>
        Fits(workers, old(host.disk), host.disk, old(host.now), host.now)
    {
      hide RecordsOk, SameSnapshots, Later, LoadedFrom, Fits, Written, Alone, Apart;
      var t := host.Now();
      var record := workers[w].(managed := managed, updatedAt := t);
      workers := workers[w := record];
      var _ := host.WriteFile(w, record);
      RestampOk(old(workers), old(host.disk), old(host.disk), w, record, old(host.now), host.now);
      if LoadedFrom(old(workers), old(host.disk)) {
        ApartIsAlone(host.dir, old(host.disk), old(host.disk).Keys);
        AloneWrites(host.dir, old(host.disk), w, record);
        RestampOk(old(workers), old(host.disk), host.disk, w, record, old(host.now), host.now);
      }
    }

    /** Load, on a store that has just been made. Files that cannot be read are passed over; records that
        are not compatible are dropped. */
    method Load(ghost known: set<Preimage>) returns (ok: bool)
      requires host.Valid() && workers == map[]
      modifies this`workers, host`alive, host`now, host`disk, host`docker, host`nextId, host`changes
      ensures host.Valid() && (host.alive ==> old(host.alive)) && RecordsOk(workers) && host.now >= old(host.now)
      ensures OthersKept(old(host.docker), host.docker, workers.Keys)
      ensures RecordsOk(old(host.disk)) ==> Restored(old(host.disk), host.disk, workers, old(host.now), host.now)
      ensures RecordsOk(old(host.disk)) && old(Durable()) ==> Durable()
      ensures RecordsOk(old(host.disk)) ==> workers.Keys <= Shelved(host.dir, old(host.disk))
      ensures RecordsOk(old(host.disk)) && host.alive && ok && host.trust(Call.ReadFile).Sure? ==>
        workers.Keys == Shelved(host.dir, old(host.disk))
      ensures host.alive && host.trust(Call.ListFiles).Sure? ==> ok
      ensures !ok ==> workers == map[] && host.disk == old(host.disk)
      ensures host.trust(Call.ReadFile).Broken? ==> workers == map[]
      ensures workers == map[] ==> host.docker == old(host.docker)
      ensures host.alive && ok && Calm(host.trust) ==> Traced(host.docker, workers)
      ensures RecordsOk(old(host.disk)) && host.alive && ok && Calm(host.trust) ==>
        AllRenewed(cfg, host.imageId, FoundOf(old(host.disk), workers), workers, host.docker, old(host.now))
      ensures RecordsOk(old(host.disk)) && host.alive && ok && host.trust(WriteFile).Sure? ==>
        InSync(workers, host.disk)
      ensures host.alive && ok && Flawless(host.trust) && Undisputed(cfg, workers, host.imageId, old(host.docker)) ==>
        forall w :: w in workers ==> RestingFor(cfg, workers[w], host.imageId, host.docker)
      ensures AllGenuine(cfg, known, old(host.docker)) ==>
        AllGenuine(cfg, known + HashedAll(cfg, workers, host.imageId), host.docker)
    {
      hide UniqueIds, OrphanFree, OthersKept, Traced, Reachable, AllGenuine, HashedAll, Compatible, Calm, Flawless;
      hide Undisputed, RestingFor, SameSnapshots, Later, Pruned, Restored, RecordsOk, LoadedFrom, FromFiles, Gathered;
      hide TopLevel, Apart, AllRenewed;
      OthersKeptRefl(host.docker, workers.Keys);
      NoRecords();
      MoreGenuine(cfg, known, known + HashedAll(cfg, workers, host.imageId), host.docker);
      ghost var d, disk, start := host.docker, host.disk, host.now;
      RestoredNot(disk, host.now);
      var names := host.ListFiles();
      if names.None? {
        return false;
      }
      ReadFiles(names.value);
      ghost var read := workers;
      if RecordsOk(disk) {
        ReadInSync(disk, read);
      }
      hide InSync;
      ReconcileAll(known);
      RestoredFrom(disk, read, host.disk, workers, start, host.now);
      if RecordsOk(disk) {
        assert FoundOf(disk, workers) == read by {
          ReadIsFound(disk, read, workers);
        }
      }
      RestingSame(cfg, read, workers, host.imageId, host.docker);
      UndisputedSame(cfg, read, workers, host.imageId, d);
      ok := true;
    }

    /** The file loop of Load: compatible files that can be read become records, incompatible ones are
        deleted, and the others stay. */
    method ReadFiles(files: set<string>)
      requires workers == map[] && files <= host.disk.Keys && Apart(host.dir, host.disk.Keys)
      modifies this`workers, host`alive, host`disk
      ensures (host.alive ==> old(host.alive)) && RecordsOk(workers) && Apart(host.dir, host.disk.Keys)
      ensures RecordsOk(old(host.disk)) ==> workers.Keys <= files
      ensures RecordsOk(old(host.disk)) ==> host.disk == old(host.disk) && LoadedFrom(workers, host.disk)
      ensures RecordsOk(old(host.disk)) ==> forall w :: w in workers ==> workers[w] == old(host.disk)[w]
      ensures host.trust(Call.ReadFile).Broken? ==> workers == map[]
      ensures RecordsOk(old(host.disk)) && host.alive && host.trust(Call.ReadFile).Sure? ==>
        forall w :: w in files ==> w in workers && workers[w] == old(host.disk)[w]
      ensures FromFiles(workers, old(host.disk), files)
      ensures host.alive && host.trust(Call.ReadFile).Sure? ==> Gathered(workers, old(host.disk), files)
      ensures Pruned(old(host.disk), host.disk, files)
      ensures host.alive && host.trust(Call.ReadFile).Sure? && host.trust(Call.DeleteFile).Sure? ==>
        forall f :: f in files && !Compatible(old(host.disk)[f]) ==> f !in host.disk
    {
      hide Compatible, RecordsOk, LoadedFrom, FromFiles, Gathered, Apart, Alone, Unlinked;
      ghost var disk := host.disk;
      NoRecords();
      NothingRead(disk, files);
      var todo := files;
      ghost var done: set<string> := {};
      while todo != {}
        invariant (host.alive ==> old(host.alive)) && RecordsOk(workers)
        invariant done + todo == files && done !! todo && host.disk.Keys <= disk.Keys && Apart(host.dir, host.disk.Keys)
        invariant host.trust(Call.ReadFile).Broken? ==> workers == map[]
        invariant FromFiles(workers, disk, files)
        invariant host.alive && host.trust(Call.ReadFile).Sure? ==> Gathered(workers, disk, done)
        invariant Pruned(disk, host.disk, done)
        invariant host.alive && host.trust(Call.ReadFile).Sure? && host.trust(Call.DeleteFile).Sure? ==>
          forall f :: f in done && !Compatible(disk[f]) ==> f !in host.disk
        decreases todo
      {
        var file :| file in todo;
        todo := todo - {file};
        var read := host.ReadFile(file);
        GatherSkip(workers, disk, done, file);
        if read.Some? {
          var record := read.value;
          if Compatible(record) {
            CompatibleStaysOk(workers, record);
            GatherStep(workers, disk, files, done, file);
            workers := workers[record.snapshot.workerId := record];
          } else {
            ApartIsAlone(host.dir, host.disk, host.disk.Keys);
            AloneWrites(host.dir, host.disk, file, record);
            var _ := host.DeleteFile(file);
          }
        }
        done := done + {file};
      }
      assert done == files;
      if RecordsOk(disk) {
        FilesFound(disk, host.disk, workers, files);
      }
    }
  }

  /** `d'` is `d` without some containers of `w` whose names are listed. */
  ghost predicate RemovedAtMost(d: Docker, d': Docker, w: string, names: set<string>)
  {
    && (forall n :: n in d' ==> n in d && d'[n] == d[n])
    && (forall n :: n in d && n !in d' ==> n in names && Mine(d[n], w))
  }

  /** Only files among these with an incompatible record were deleted, and none was written. */
  ghost predicate Pruned(disk: map<string, Record>, disk': map<string, Record>, files: set<string>)
  {
    && (forall f :: f in disk' ==> f in disk && disk'[f] == disk[f])
    && (forall f :: f in disk && f !in disk' ==> f in files && !Compatible(disk[f]))
  }

  /** Over several workers. */
  ghost predicate RemovedOnly(d: Docker, d': Docker, workers: map<string, Record>, gone: set<string>)
  {
    && (forall n :: n in d' ==> n in d && d'[n] == d[n])
    && (forall n :: n in d && n !in d' ==>
          exists w :: w in gone && w in workers && Mine(d[n], w) && n in workers[w].managed)
  }

  /** None of these names is left with the worker. */
  ghost predicate Cleared(d: Docker, w: string, names: set<string>)
  {
    forall n :: n in names && n in d ==> !Mine(d[n], w)
  }

  ghost predicate AllCleared(d: Docker, workers: map<string, Record>, gone: set<string>)
  {
    forall w :: w in gone && w in workers ==> Cleared(d, w, workers[w].managed)
  }

  /** What expiry has done so far. */
  ghost predicate Shrunk(dir: Path, d: Docker, d': Docker, workers: map<string, Record>, disk: map<string, Record>,
                         disk': map<string, Record>, gone: set<string>)
  {
    && RemovedOnly(d, d', workers, gone)
    && disk'.Keys <= disk.Keys
    && (forall v :: v in disk && v !in disk' ==> exists w :: w in gone && FileOf(dir, v) == FileOf(dir, w))
    && (forall w :: w in disk' ==> disk'[w] == disk[w])
  }

  /** With files of their own, only the files of those that are gone are gone. */
  lemma ShrunkApart(dir: Path, d: Docker, d': Docker, workers: map<string, Record>, disk: map<string, Record>,
                    disk': map<string, Record>, gone: set<string>)
    requires Shrunk(dir, d, d', workers, disk, disk', gone) && gone <= workers.Keys
    requires Apart(dir, workers.Keys + disk.Keys)
    ensures forall v :: v in disk && v !in gone ==> v in disk'
  {
    hide FileOf, RemovedOnly;
  }

  /** Every record comes from one of these files. */
  ghost predicate FromFiles(workers: map<string, Record>, disk: map<string, Record>, files: set<string>)
  {
    forall w :: w in workers ==> exists f :: f in files && f in disk && workers[w] == disk[f]
  }

  /** The worker of each of these files has a record, unless the file is incompatible. */
  ghost predicate Gathered(workers: map<string, Record>, disk: map<string, Record>, files: set<string>)
  {
    forall f :: f in files && f in disk && Compatible(disk[f]) ==> disk[f].snapshot.workerId in workers
  }

  lemma NothingRead(disk: map<string, Record>, files: set<string>)
    ensures FromFiles(map[], disk, files) && Gathered(map[], disk, {})
  {
  }

  lemma GatherStep(workers: map<string, Record>, disk: map<string, Record>, files: set<string>, done: set<string>,
                   file: string)
    requires FromFiles(workers, disk, files) && file in files && file in disk
    ensures var workers' := workers[disk[file].snapshot.workerId := disk[file]];
            && FromFiles(workers', disk, files)
            && (Gathered(workers, disk, done) ==> Gathered(workers', disk, done + {file}))
  {
    hide Compatible;
    var w := disk[file].snapshot.workerId;
    var workers' := workers[w := disk[file]];
    forall v | v in workers' ensures exists f :: f in files && f in disk && workers'[v] == disk[f] {
      if v != w {
        assert v in workers;
      }
    }
  }

  lemma GatherSkip(workers: map<string, Record>, disk: map<string, Record>, done: set<string>, file: string)
    requires file in disk
    ensures !Compatible(disk[file]) && Gathered(workers, disk, done) ==> Gathered(workers, disk, done + {file})
  {
    hide Compatible;
  }

  lemma NoRecords()
    ensures RecordsOk(map[])
  {
  }

  lemma CompatibleStaysOk(m: map<string, Record>, r: Record)
    requires RecordsOk(m) && Compatible(r)
    ensures RecordsOk(m[r.snapshot.workerId := r])
  {
  }

  /** When every file holds the record of the worker it is named after, nothing is deleted, and each
      record read is that of its own file. */
  lemma FilesFound(disk: map<string, Record>, disk': map<string, Record>, workers: map<string, Record>,
                   files: set<string>)
    requires RecordsOk(disk) && RecordsOk(workers) && files <= disk.Keys && Pruned(disk, disk', files)
    requires FromFiles(workers, disk, files)
    ensures disk' == disk && LoadedFrom(workers, disk)
    ensures forall w :: w in workers ==> workers[w] == disk[w]
    ensures workers.Keys <= files && (Gathered(workers, disk, files) ==> files <= workers.Keys)
  {
    forall w | w in workers ensures w in files && workers[w] == disk[w] {
      var f :| f in files && workers[w] == disk[f];
      assert f == w;
    }
    if Gathered(workers, disk, files) {
      forall f | f in files ensures f in workers {
        assert Compatible(disk[f]) && disk[f].snapshot.workerId == f;
      }
    }
  }

  lemma StaysAlone(dir: Path, disk: map<string, Record>, disk': map<string, Record>, w: string)
    requires disk' == disk || disk' == Unlinked(dir, disk, w)
    ensures disk'.Keys <= disk.Keys
    ensures forall v :: Alone(dir, disk, v) ==> Alone(dir, disk', v)
  {
    hide FileOf;
  }

  lemma ShrunkNot(dir: Path, d: Docker, workers: map<string, Record>, disk: map<string, Record>)
    ensures Shrunk(dir, d, d, workers, disk, disk, {}) && AllCleared(d, workers, {}) && RemovedOnly(d, d, workers, {})
  {
  }

  lemma ShrunkStep(dir: Path, d: Docker, before: Docker, after: Docker, workers: map<string, Record>,
                   disk: map<string, Record>, disk1: map<string, Record>, disk2: map<string, Record>, gone: set<string>,
                   w: string)
    requires w in workers && Shrunk(dir, d, before, workers, disk, disk1, gone)
    requires RemovedAtMost(before, after, w, workers[w].managed)
    requires disk2 == disk1 || disk2 == Unlinked(dir, disk1, w)
    ensures Shrunk(dir, d, after, workers, disk, disk2, gone + {w})
    ensures AllCleared(before, workers, gone) && Cleared(after, w, workers[w].managed) ==>
      AllCleared(after, workers, gone + {w})
    ensures Traced(d, workers) && w !in gone ==> Listed(before, workers - gone, w)
  {
    hide Mine, FileOf;
    assert Traced(d, workers) ==> Listed(d, workers, w);
    forall v | v in disk && v !in disk2 ensures exists x :: x in gone + {w} && FileOf(dir, v) == FileOf(dir, x) {
      if v !in disk1 {
        var x :| x in gone && FileOf(dir, v) == FileOf(dir, x);
        assert x in gone + {w};
      } else {
        assert w in gone + {w};
      }
    }
    forall n | n in d && n !in after
      ensures exists v :: v in gone + {w} && v in workers && Mine(d[n], v) && n in workers[v].managed
    {
      if n !in before {
        var v :| v in gone && v in workers && Mine(d[n], v) && n in workers[v].managed;
        assert v in gone + {w};
      } else {
        assert w in gone + {w};
      }
    }
  }

  lemma ExpireKeeps(d: Docker, d': Docker, workers: map<string, Record>, disk: map<string, Record>,
                    disk': map<string, Record>,
                    w: string, complete: bool)
    requires w in workers && w != "" && RemovedAtMost(d, d', w, workers[w].managed)
    requires OrphanFree(d, disk) && Listed(d, workers, w)
    requires complete ==> Cleared(d', w, workers[w].managed)
    requires disk' == disk || (disk' == disk - {w} && complete)
    ensures OrphanFree(d', disk')
  {
    hide Mine;
    if complete {
      forall n | n in d' ensures !Mine(d'[n], w) {
        assert n in d && d'[n] == d[n];
      }
    }
  }

  lemma ListedSubset(d: Docker, d': Docker, workers: map<string, Record>, w: string, gone: set<string>)
    requires w in workers && w !in gone && (forall n :: n in d' ==> n in d && d'[n] == d[n])
    ensures Listed(d, workers, w) ==> Listed(d', workers - gone, w)
  {
  }

  lemma TracedSubset(d: Docker, d': Docker, workers: map<string, Record>, workers': map<string, Record>,
                     gone: set<string>)
    requires workers' == workers - gone && RemovedOnly(d, d', workers, gone)
    ensures Traced(d, workers) ==> Traced(d', workers')
  {
    forall w | w in workers' && Traced(d, workers) ensures Listed(d', workers', w) {
      ListedSubset(d, d', workers, w, gone);
    }
  }

  lemma HeldAfterExpiry(d: Docker, d': Docker, workers: map<string, Record>, workers': map<string, Record>,
                        gone: set<string>)
    requires workers' == workers - gone && gone <= workers.Keys && RemovedOnly(d, d', workers, gone)
    requires AllCleared(d', workers, gone)
    ensures Traced(d, workers) && AllHeld(d, workers) ==> AllHeld(d', workers')
  {
    hide Mine;
    if Traced(d, workers) && AllHeld(d, workers) {
      forall w | w != "" ensures Held(d', workers', w) {
        assert Held(d, workers, w);
        if w in gone {
          assert Listed(d, workers, w) && Cleared(d', w, workers[w].managed);
        }
      }
    }
  }

  /** When all calls work, expiry leaves no orphan exactly if the lists of the forgotten workers were complete. */
  lemma OrphansAfterExpiry(dir: Path, d: Docker, d': Docker, workers: map<string, Record>, disk: map<string, Record>,
                           disk': map<string, Record>, gone: set<string>)
    requires OrphanFree(d, disk) && gone <= workers.Keys && Shrunk(dir, d, d', workers, disk, disk', gone)
    requires Apart(dir, workers.Keys + disk.Keys)
    requires RecordsOk(workers) && AllCleared(d', workers, gone)
    requires gone !! disk'.Keys
    ensures OrphanFree(d', disk') <==> forall w :: w in gone ==> Listed(d, workers, w)
  {
    ShrunkApart(dir, d, d', workers, disk, disk', gone);
    hide Shrunk, FileOf;
    assert RemovedOnly(d, d', workers, gone) by {
      ShrunkMeans(dir, d, d', workers, disk, disk', gone);
    }
    if forall w :: w in gone ==> Listed(d, workers, w) {
      forall n, v | n in d' && v != "" && Mine(d'[n], v) ensures v in disk' {
        assert n in d && d[n] == d'[n];
        if v in gone {
          assert false;
        }
      }
    }
    if OrphanFree(d', disk') {
      forall w | w in gone ensures Listed(d, workers, w) {
        forall n | n in d && Mine(d[n], w) ensures n in workers[w].managed {
          if n !in d' {
            var v :| v in gone && v in workers && Mine(d[n], v) && n in workers[v].managed;
            NobodyOwnsTwice(d[n], v, w);
          }
        }
      }
    }
  }

  lemma ShrunkMeans(dir: Path, d: Docker, d': Docker, workers: map<string, Record>, disk: map<string, Record>,
                    disk': map<string, Record>, gone: set<string>)
    requires Shrunk(dir, d, d', workers, disk, disk', gone)
    ensures RemovedOnly(d, d', workers, gone) && disk'.Keys <= disk.Keys
    ensures forall w :: w in disk' ==> disk'[w] == disk[w]
  {
  }

  lemma ExpiredRecords(p: Ledger.Policy, now: int, dir: Path, d: Docker, d': Docker, workers: map<string, Record>,
                       disk: map<string, Record>, workers': map<string, Record>, disk': map<string, Record>, at: int,
                       gone: set<string>)
    requires p.ttl > 0 && at <= now && gone <= workers.Keys && workers' == workers - gone
    requires forall w :: w in gone ==> at - workers[w].updatedAt > p.ttl
    requires Shrunk(dir, d, d', workers, disk, disk', gone) && Apart(dir, workers.Keys + disk.Keys)
    ensures Ledger.Expired(p, BooksOf(now, workers, disk), BooksOf(now, workers', disk'), at, gone)
  {
    ShrunkApart(dir, d, d', workers, disk, disk', gone);
    hide FileOf;
    assert Entries(workers - gone) == Entries(workers) - gone;
  }

  /** Loaded records come from files of the same worker with the same snapshot. */
  ghost predicate LoadedFrom(workers: map<string, Record>, disk: map<string, Record>)
  {
    && RecordsOk(workers) && RecordsOk(disk) && workers.Keys <= disk.Keys
    && forall w :: w in workers ==> workers[w].snapshot == disk[w].snapshot
  }

  ghost predicate SameSnapshots(m: map<string, Record>, m': map<string, Record>)
  {
    m'.Keys == m.Keys && forall w :: w in m ==> m'[w].snapshot == m[w].snapshot
  }

  /** Records keep their stamp or get a new one between `from` and `to`. */
  ghost predicate Later(m: map<string, Record>, m': map<string, Record>, from: int, to: int)
  {
    m.Keys == m'.Keys && forall w :: w in m ==> m'[w].updatedAt == m[w].updatedAt || from <= m'[w].updatedAt <= to
  }

  lemma AgeTwice(m: map<string, Record>, m': map<string, Record>, m'': map<string, Record>, a: int, b: int, c: int)
    requires a <= b <= c
    requires SameSnapshots(m, m') && Later(m, m', a, b) && SameSnapshots(m', m'') && Later(m', m'', b, c)
    ensures SameSnapshots(m, m'') && Later(m, m'', a, c) && m.Keys == m''.Keys
  {
  }

  /** The loaded records fit the files, which have kept their snapshots. */
  ghost predicate Fits(workers: map<string, Record>, disk: map<string, Record>, disk': map<string, Record>, from: int,
                       to: int)
  {
    LoadedFrom(workers, disk') && SameSnapshots(disk, disk') && Later(disk, disk', from, to)
  }

  lemma FitsTwice(workers: map<string, Record>, workers': map<string, Record>, disk: map<string, Record>,
                  disk1: map<string, Record>,
                  disk2: map<string, Record>, a: int, b: int, c: int)
    requires a <= b <= c && Fits(workers, disk, disk1, a, b)
    requires LoadedFrom(workers, disk1) ==> Fits(workers', disk1, disk2, b, c)
    ensures LoadedFrom(workers, disk1) && Fits(workers', disk, disk2, a, c)
  {
    hide LoadedFrom;
    AgeTwice(disk, disk1, disk2, a, b, c);
  }

  /** What reconciling loaded records has done so far to them and to the files they came from. */
  ghost predicate Reloading(first: map<string, Record>, workers: map<string, Record>, disk: map<string, Record>,
                            disk': map<string, Record>, from: int, to: int, fits: bool)
  {
    SameSnapshots(first, workers) && Later(first, workers, from, to) && (fits ==> Fits(workers, disk, disk', from, to))
  }

  lemma ReloadingNot(first: map<string, Record>, disk: map<string, Record>, now: int, fits: bool)
    requires fits ==> LoadedFrom(first, disk)
    ensures Reloading(first, first, disk, disk, now, now, fits)
  {
    hide LoadedFrom;
  }

  lemma ReloadingStep(first: map<string, Record>, m: map<string, Record>, m': map<string, Record>,
                      disk: map<string, Record>, disk1: map<string, Record>, disk2: map<string, Record>,
                      a: int, b: int, c: int, fits: bool)
    requires a <= b <= c && Reloading(first, m, disk, disk1, a, b, fits)
    requires SameSnapshots(m, m') && Later(m, m', b, c) && (LoadedFrom(m, disk1) ==> Fits(m', disk1, disk2, b, c))
    ensures Reloading(first, m', disk, disk2, a, c, fits) && (fits ==> LoadedFrom(m, disk1))
  {
    hide LoadedFrom;
    AgeTwice(first, m, m', a, b, c);
    if fits {
      FitsTwice(m, m', disk, disk1, disk2, a, b, c);
    }
  }

  lemma ReloadingMeans(first: map<string, Record>, m: map<string, Record>, disk: map<string, Record>,
                       disk': map<string, Record>, from: int, to: int, fits: bool)
    requires Reloading(first, m, disk, disk', from, to, fits)
    ensures SameSnapshots(first, m) && Later(first, m, from, to) && (fits ==> Fits(m, disk, disk', from, to))
  {
  }

  /** What one round of reconcileAll does. If it failed, the record stays as it was, in memory and on disk;
      otherwise it gets the time and the list of what runs. It has failed when the image or the list of containers
      could not be had; and when these can be had, exactly if something is wanted and nothing runs. */
  ghost predicate Rounded(cfg: Config, imageId: string, dir: Path, trust: Call -> Trust, alive: bool,
                          m: map<string, Record>, m': map<string, Record>, w: string, d: Docker, d': Docker,
                          f: map<string, Record>, f': map<string, Record>, from: int, to: int, left: set<string>,
                          failed: bool)
  {
    && from <= to && w in m && w in m' && m' == m[w := m'[w]] && m'[w].snapshot == m[w].snapshot && FrameOf(w, d, d')
    && SameSnapshots(m, m') && Later(m, m', from, to)
    && (f' == f || f' == Written(dir, f, w, m'[w]))
    && (LoadedFrom(m, f) ==> Fits(m', f, f', from, to))
    && (LoadedFrom(m, f) && OrphanFree(d, f) ==> OrphanFree(d', f'))
    && OldOrMade(cfg, w, Wanted(cfg, m[w], imageId), d, d')
    && Stands(w, Wanted(cfg, m[w], imageId), d', left)
    && (if failed then left == {} && m' == m && f' == f
        else
          && (left != {} || Wanted(cfg, m[w], imageId) == map[]) && m'[w].managed == left && m'[w].updatedAt >= from
          && (alive && trust(WriteFile).Sure? ==> f' == Written(dir, f, w, m'[w])))
    && (trust(InspectImage).Broken? || trust(ListContainers).Broken? ==> failed)
    && (alive && Looking(trust) ==> (failed <==> left == {} && Wanted(cfg, m[w], imageId) != map[]))
    && (alive && Calm(trust) ==> MineOf(d', w).Keys <= left && ListsKept(d, d', m, m', w))
    && (alive && Flawless(trust) && NamesFree(d, w, Wanted(cfg, m[w], imageId)) ==>
          SettledFor(cfg, m'[w], m'[w].managed, imageId, d, d'))
  }

  /** What reconciling loaded records has done so far. */
  ghost predicate Progress(cfg: Config, known: set<Preimage>, imageId: string, trust: Call -> Trust, alive: bool,
                           first: map<string, Record>, workers: map<string, Record>, todo: set<string>, d: Docker,
                           d': Docker, disk: map<string, Record>, disk': map<string, Record>, from: int, to: int)
  {
    && Reloading(first, workers, disk, disk', from, to, LoadedFrom(first, disk))
    && (LoadedFrom(first, disk) && OrphanFree(d, disk) ==> OrphanFree(d', disk'))
    && Tended(cfg, imageId, alive && Calm(trust), alive && trust(WriteFile).Sure? && InSync(first, disk), first,
              workers, todo, d', disk', from)
    && (alive && Flawless(trust) && Undisputed(cfg, first, imageId, d) ==> RestingBut(cfg, first, todo, imageId, d'))
    && Swept(cfg, known + HashedAll(cfg, first, imageId), AllGenuine(cfg, known, d), first.Keys, d, d')
  }

  lemma ProgressNot(cfg: Config, known: set<Preimage>, imageId: string, trust: Call -> Trust,
                    first: map<string, Record>, disk: map<string, Record>, d: Docker, now: int)
    ensures forall alive ::
      Progress(cfg, known, imageId, trust, alive, first, first, first.Keys, d, d, disk, disk, now, now)
  {
    hide Reloading, LoadedFrom, OrphanFree, Tended, Calm, InSync, Flawless, Undisputed, Swept, HashedAll, AllGenuine;
    ReloadingNot(first, disk, now, LoadedFrom(first, disk));
    SweptNot(cfg, known, known + HashedAll(cfg, first, imageId), first.Keys, d);
    TendedNot(cfg, imageId, InSync(first, disk), first, d, disk, now);
  }

  lemma ProgressStep(cfg: Config, known: set<Preimage>, imageId: string, dir: Path, trust: Call -> Trust,
                     before: bool, alive: bool, first: map<string, Record>, m: map<string, Record>,
                     m': map<string, Record>, todo: set<string>, w: string, d0: Docker, d: Docker, d': Docker,
                     disk: map<string, Record>, f: map<string, Record>, f': map<string, Record>, a: int, b: int, c: int,
                     left: set<string>, failed: bool)
    requires RecordsOk(first) && w in first && w !in todo && w in m && m[w] == first[w] && Apart(dir, f.Keys)
    requires a <= b && (alive ==> before)
    requires Progress(cfg, known, imageId, trust, before, first, m, todo + {w}, d0, d, disk, f, a, b)
    requires Rounded(cfg, imageId, dir, trust, alive, m, m', w, d, d', f, f', b, c, left, failed)
    ensures Progress(cfg, known, imageId, trust, alive, first, m', todo, d0, d', disk, f', a, c)
  {
    hide Reloading, LoadedFrom, OrphanFree, Tended, InSync, Undisputed, Swept, HashedAll, AllGenuine, RecordsOk;
    hide SameSnapshots, Later, Fits, Written, FrameOf, OldOrMade, Wanted, Stands, MineOf, ListsKept, NamesFree;
    hide SettledFor, RestingBut, Apart, Flawless;
    ReloadingStep(first, m, m', disk, f, f', a, b, c, LoadedFrom(first, disk));
    WantedSame(cfg, m'[w], m[w], imageId);
    TendedWeaker(cfg, imageId, before && Calm(trust), before && trust(WriteFile).Sure? && InSync(first, disk),
                 alive && Calm(trust), alive && trust(WriteFile).Sure? && InSync(first, disk), first, m, todo + {w}, d,
                 f, a);
    TendedStep(cfg, imageId, dir, alive && Calm(trust), alive && trust(WriteFile).Sure? && InSync(first, disk), first,
               m, m', todo, w, d, d', f, f', a, left, failed);
    if alive && Flawless(trust) && Undisputed(cfg, first, imageId, d0) {
      RestStep(cfg, imageId, first, m'[w], w, todo, d, d');
    }
    SweptStep(cfg, known + HashedAll(cfg, first, imageId), AllGenuine(cfg, known, d0), first, m'[w], w, imageId, d0, d,
              d');
  }

  lemma TendedWeaker(cfg: Config, imageId: string, calm: bool, filed: bool, calm': bool, filed': bool,
                     first: map<string, Record>, workers: map<string, Record>, todo: set<string>, d: Docker,
                     disk: map<string, Record>, from: int)
    requires Tended(cfg, imageId, calm, filed, first, workers, todo, d, disk, from)
    requires (calm' ==> calm) && (filed' ==> filed)
    ensures Tended(cfg, imageId, calm', filed', first, workers, todo, d, disk, from)
  {
  }

  lemma ProgressMeans(cfg: Config, known: set<Preimage>, imageId: string, trust: Call -> Trust, alive: bool,
                      first: map<string, Record>, workers: map<string, Record>, d: Docker, d': Docker,
                      disk: map<string, Record>, disk': map<string, Record>, from: int, to: int)
    requires Progress(cfg, known, imageId, trust, alive, first, workers, {}, d, d', disk, disk', from, to)
    ensures SameSnapshots(first, workers) && Later(first, workers, from, to) && OthersKept(d, d', workers.Keys)
    ensures LoadedFrom(first, disk) ==> Fits(workers, disk, disk', from, to)
    ensures LoadedFrom(first, disk) && OrphanFree(d, disk) ==> OrphanFree(d', disk')
    ensures alive && Calm(trust) ==> Traced(d', workers) && AllRenewed(cfg, imageId, first, workers, d', from)
    ensures alive && trust(WriteFile).Sure? && InSync(first, disk) ==> InSync(workers, disk')
    ensures AllGenuine(cfg, known, d) ==> AllGenuine(cfg, known + HashedAll(cfg, workers, imageId), d')
    ensures alive && Flawless(trust) && Undisputed(cfg, first, imageId, d) ==> forall w :: w in workers ==>
      RestingFor(cfg, first[w], imageId, d')
  {
    hide LoadedFrom, OrphanFree, InSync, Undisputed, HashedAll, AllGenuine, Fits, Flawless, RestingFor, Wanted;
    hide Later, Reloading, Swept, Tended, Traced, AllRenewed, OthersKept, Calm, RestingBut;
    var fits := LoadedFrom(first, disk);
    ReloadingMeans(first, workers, disk, disk', from, to, fits);
    SweptMeans(cfg, known + HashedAll(cfg, first, imageId), AllGenuine(cfg, known, d), first.Keys, d, d');
    TendedMeans(cfg, imageId, alive && Calm(trust), alive && trust(WriteFile).Sure? && InSync(first, disk), first,
                workers, d', disk', from);
    if alive && Flawless(trust) && Undisputed(cfg, first, imageId, d) {
      NoneToCome(cfg, first, imageId, d');
    }
    SameHashed(cfg, first, workers, imageId);
  }

  /** Containers of nobody among these workers were neither touched nor created. */
  ghost predicate OthersKept(d: Docker, d': Docker, ws: set<string>)
  {
    && (forall n :: n in d && !Owned(d[n], ws) ==> n in d' && d'[n] == d[n])
    && (forall n :: n in d' && !Owned(d'[n], ws) ==> n in d && d'[n] == d[n])
  }

  lemma OthersKeptRefl(d: Docker, ws: set<string>)
    ensures OthersKept(d, d, ws)
  {
  }

  /** Restamping the record of `w` in memory, and perhaps on disk. */
  lemma RestampOk(workers: map<string, Record>, disk: map<string, Record>, disk': map<string, Record>, w: string,
                  r: Record, from: int, to: int)
    requires RecordsOk(workers) && w in workers && r.snapshot == workers[w].snapshot
    requires from <= r.updatedAt <= to || r == workers[w]
    requires disk' == disk || (disk' == disk[w := r] && from <= r.updatedAt <= to)
    ensures r == workers[w] ==> workers[w := r] == workers
    ensures RecordsOk(workers[w := r]) && SameSnapshots(workers, workers[w := r])
    ensures Later(workers, workers[w := r], from, to)
    ensures LoadedFrom(workers, disk) ==> w in disk && Fits(workers[w := r], disk, disk', from, to)
  {
  }

  lemma OthersStep(d: Docker, d': Docker, d'': Docker, w: string, ws: set<string>)
    requires OthersKept(d, d', ws) && FrameOf(w, d', d'') && w in ws
    ensures OthersKept(d, d'', ws)
  {
  }

  lemma StillDurable(dir: Path, d: Docker, d': Docker, disk: map<string, Record>, disk': map<string, Record>, w: string,
                     r: Record)
    requires FrameOf(w, d, d') && Apart(dir, disk.Keys)
    requires disk' == disk || disk' == Written(dir, disk, w, r)
    ensures w in disk && OrphanFree(d, disk) ==> OrphanFree(d', disk')
  {
    hide Written, Alone, Apart, FrameOf;
    if w in disk && OrphanFree(d, disk) {
      ApartIsAlone(dir, disk, disk.Keys);
      AloneWrites(dir, disk, w, r);
      FrameKeepsOrphanFree(d, d', disk, w);
      MoreRecordsKeepOrphanFree(d', disk, disk');
    }
  }

  /** The list of `w` is complete, and those that were stay so. */
  ghost predicate ListsKept(d: Docker, d': Docker, workers: map<string, Record>, workers': map<string, Record>,
                            w: string)
  {
    && Listed(d', workers', w)
    && forall v :: v != w && v in workers && Listed(d, workers, v) ==> Listed(d', workers', v)
  }

  ghost predicate ListedBut(d: Docker, workers: map<string, Record>, todo: set<string>)
  {
    forall w :: w in workers && w !in todo ==> Listed(d, workers, w)
  }

  lemma AllListed(d: Docker, workers: map<string, Record>)
    ensures ListedBut(d, workers, {}) ==> Traced(d, workers)
  {
  }

  lemma ListStep(d: Docker, d': Docker, m: map<string, Record>, m': map<string, Record>, todo: set<string>, w: string)
    requires ListedBut(d, m, todo + {w}) && m'.Keys == m.Keys && ListsKept(d, d', m, m', w)
    ensures ListedBut(d', m', todo)
  {
    hide Listed;
  }

  lemma OthersListed(d: Docker, d': Docker, workers: map<string, Record>, workers': map<string, Record>, w: string,
                     managed: set<string>)
    requires FrameOf(w, d, d') && MineOf(d', w).Keys <= managed && w in workers && w in workers'
    requires workers'[w].managed == managed || (managed == {} && workers' == workers)
    requires forall v :: v != w && v in workers ==> v in workers' && workers'[v] == workers[v]
    ensures ListsKept(d, d', workers, workers', w)
  {
    forall n | n in d' && Mine(d'[n], w) ensures n in workers'[w].managed {
      assert n in MineOf(d', w);
    }
    OthersStayListed(d, d', workers, workers', w);
  }

  /** The loaded part of the files. */
  function FoundOf(disk: map<string, Record>, workers: map<string, Record>): map<string, Record>
  {
    map w | w in disk && w in workers :: disk[w]
  }

  /** The workers whose files a loader finds. */
  function Shelved(dir: Path, disk: map<string, Record>): set<string>
  {
    set w | w in disk && TopLevel(dir, w)
  }

  /** The record was stamped again since `from`; or it is as it was, because none of the stubs it wants could
      be had. */
  ghost predicate Renewed(cfg: Config, imageId: string, r: Record, r': Record, d: Docker, from: int)
  {
    || r'.updatedAt >= from
    || (r' == r && Wanted(cfg, r, imageId) != map[] && NoneOf(d, r.snapshot.workerId))
  }

  ghost predicate RenewedBut(cfg: Config, imageId: string, first: map<string, Record>, workers: map<string, Record>,
                             todo: set<string>, d: Docker, from: int)
  {
    && workers.Keys == first.Keys
    && forall w :: w in first && w !in todo ==> Renewed(cfg, imageId, first[w], workers[w], d, from)
  }

  ghost predicate AllRenewed(cfg: Config, imageId: string, first: map<string, Record>, workers: map<string, Record>,
                             d: Docker, from: int)
  {
    workers.Keys == first.Keys && forall w :: w in first ==> Renewed(cfg, imageId, first[w], workers[w], d, from)
  }

  /** The files hold what memory does. */
  ghost predicate InSync(workers: map<string, Record>, disk: map<string, Record>)
  {
    forall w :: w in workers ==> w in disk && disk[w] == workers[w]
  }

  lemma RenewedStep(cfg: Config, imageId: string, first: map<string, Record>, m: map<string, Record>,
                    m': map<string, Record>, todo: set<string>, w: string, d: Docker, d': Docker, from: int,
                    left: set<string>, failed: bool)
    requires RecordsOk(first) && w in m && w !in todo && w in first && m[w] == first[w]
    requires RenewedBut(cfg, imageId, first, m, todo + {w}, d, from)
    requires w in m' && m' == m[w := m'[w]] && FrameOf(w, d, d') && MineOf(d', w).Keys <= left
    requires if failed then m' == m && left == {} && Wanted(cfg, m[w], imageId) != map[] else m'[w].updatedAt >= from
    ensures RenewedBut(cfg, imageId, first, m', todo, d', from)
  {
    hide Compatible, Wanted, Mine;
    forall v | v in first && v !in todo ensures Renewed(cfg, imageId, first[v], m'[v], d', from) {
      if v != w {
        assert Renewed(cfg, imageId, first[v], m[v], d, from);
        assert MineOf(d', v) == MineOf(d, v) by {
          FrameElsewhere(w, v, d, d');
        }
        assert NoneOf(d, v) ==> NoneOf(d', v) by {
          NoneIsEmpty(d, v);
          NoneIsEmpty(d', v);
        }
      } else {
        NoneIsEmpty(d', w);
      }
    }
  }

  lemma NoneIsEmpty(d: Docker, w: string)
    ensures NoneOf(d, w) <==> MineOf(d, w) == map[]
  {
    hide Mine;
    if MineOf(d, w) == map[] {
      forall n | n in d ensures !Mine(d[n], w) {
        assert n !in MineOf(d, w);
      }
    }
  }

  /** What reconciling has done so far for lists, stamps and files. */
  ghost predicate Tended(cfg: Config, imageId: string, calm: bool, filed: bool, first: map<string, Record>,
                         workers: map<string, Record>, todo: set<string>, d: Docker, disk: map<string, Record>,
                         from: int)
  {
    && (calm ==> ListedBut(d, workers, todo) && RenewedBut(cfg, imageId, first, workers, todo, d, from))
    && (filed ==> InSync(workers, disk))
  }

  lemma TendedNot(cfg: Config, imageId: string, sync: bool, first: map<string, Record>, d: Docker,
                  disk: map<string, Record>, from: int)
    requires sync ==> InSync(first, disk)
    ensures forall calm, filed :: (filed ==> sync) ==>
      Tended(cfg, imageId, calm, filed, first, first, first.Keys, d, disk, from)
  {
  }

  lemma TendedStep(cfg: Config, imageId: string, dir: Path, calm: bool, filed: bool, first: map<string, Record>,
                   m: map<string, Record>, m': map<string, Record>, todo: set<string>, w: string, d: Docker,
                   d': Docker, f: map<string, Record>, f': map<string, Record>, from: int, left: set<string>,
                   failed: bool)
    requires RecordsOk(first) && w in m && w !in todo && w in first && m[w] == first[w]
    requires Tended(cfg, imageId, calm, filed, first, m, todo + {w}, d, f, from) && Apart(dir, f.Keys)
    requires w in m' && m' == m[w := m'[w]] && FrameOf(w, d, d') && (failed ==> m' == m && f' == f)
    requires !failed ==> m'[w].updatedAt >= from && (filed ==> f' == Written(dir, f, w, m'[w]))
    requires calm ==> MineOf(d', w).Keys <= left && ListsKept(d, d', m, m', w)
    requires calm && failed ==> left == {} && Wanted(cfg, m[w], imageId) != map[]
    ensures Tended(cfg, imageId, calm, filed, first, m', todo, d', f', from)
  {
    hide RecordsOk, RenewedBut, ListedBut, InSync, Written, Apart, Wanted, FrameOf, ListsKept, MineOf;
    if calm {
      ListStep(d, d', m, m', todo, w);
      RenewedStep(cfg, imageId, first, m, m', todo, w, d, d', from, left, failed);
    }
    if filed {
      SyncStep(dir, m, m', f, f', w, failed);
    }
  }

  lemma TendedMeans(cfg: Config, imageId: string, calm: bool, filed: bool, first: map<string, Record>,
                    workers: map<string, Record>, d: Docker, disk: map<string, Record>, from: int)
    requires Tended(cfg, imageId, calm, filed, first, workers, {}, d, disk, from)
    ensures calm ==> Traced(d, workers) && AllRenewed(cfg, imageId, first, workers, d, from)
    ensures filed ==> InSync(workers, disk)
  {
    AllListed(d, workers);
  }

  /** With its worker at rest, a record is always stamped again. */
  lemma RestingIsRenewed(cfg: Config, imageId: string, r: Record, r': Record, d: Docker, from: int)
    requires Renewed(cfg, imageId, r, r', d, from) && RestingFor(cfg, r, imageId, d)
    ensures r'.updatedAt >= from
  {
    hide DesiredByName, Matches, Mine;
    NoneIsEmpty(d, r.snapshot.workerId);
    if n :| n in Wanted(cfg, r, imageId) {
      assert n in MineOf(d, r.snapshot.workerId);
    }
  }

  lemma SyncStep(dir: Path, m: map<string, Record>, m': map<string, Record>, f: map<string, Record>,
                 f': map<string, Record>, w: string, failed: bool)
    requires Apart(dir, f.Keys) && w in m && w in m' && m' == m[w := m'[w]]
    requires failed ==> m' == m && f' == f
    ensures InSync(m, f) && (failed || f' == Written(dir, f, w, m'[w])) ==> InSync(m', f')
  {
    hide Apart, Written, Alone;
    if InSync(m, f) && !failed && f' == Written(dir, f, w, m'[w]) {
      ApartIsAlone(dir, f, f.Keys);
      AloneWrites(dir, f, w, m'[w]);
    }
  }

  lemma ReadInSync(disk: map<string, Record>, read: map<string, Record>)
    requires forall w :: w in read ==> w in disk && read[w] == disk[w]
    ensures InSync(read, disk)
  {
  }

  lemma ReadIsFound(disk: map<string, Record>, read: map<string, Record>, workers: map<string, Record>)
    requires workers.Keys == read.Keys && forall w :: w in read ==> w in disk && read[w] == disk[w]
    ensures FoundOf(disk, workers) == read
  {
  }

  /** After a start: the files keep their snapshots, and memory holds those that were read. */
  ghost predicate Restored(disk: map<string, Record>, disk': map<string, Record>, workers: map<string, Record>,
                           from: int, to: int)
  {
    && RecordsOk(disk') && SameSnapshots(disk, disk') && Later(disk, disk', from, to)
    && workers.Keys <= disk.Keys
    && SameSnapshots(FoundOf(disk, workers), workers)
    && Later(FoundOf(disk, workers), workers, from, to)
  }

  lemma RestoredNot(disk: map<string, Record>, now: int)
    ensures RecordsOk(disk) ==> Restored(disk, disk, map[], now, now)
  {
  }

  lemma RestoredFrom(disk: map<string, Record>, read: map<string, Record>, disk': map<string, Record>,
                     workers: map<string, Record>,
                     from: int, to: int)
    requires SameSnapshots(read, workers) && Later(read, workers, from, to)
    requires RecordsOk(disk) ==> LoadedFrom(read, disk) && forall w :: w in read ==> read[w] == disk[w]
    requires RecordsOk(disk) ==> Fits(workers, disk, disk', from, to)
    ensures RecordsOk(disk) ==> Restored(disk, disk', workers, from, to)
    ensures workers.Keys == read.Keys
  {
    hide Compatible;
    if RecordsOk(disk) {
      assert FoundOf(disk, workers) == read;
    }
  }

  /** Records keep their snapshots, and so what they want. */
  lemma UndisputedSame(cfg: Config, m: map<string, Record>, m': map<string, Record>, imageId: string, d: Docker)
    requires SameSnapshots(m, m')
    ensures Undisputed(cfg, m', imageId, d) ==> Undisputed(cfg, m, imageId, d)
  {
    hide DesiredByName, NamesFree;
  }

  lemma RestingSame(cfg: Config, m: map<string, Record>, m': map<string, Record>, imageId: string, d: Docker)
    requires SameSnapshots(m, m')
    ensures (forall w :: w in m ==> RestingFor(cfg, m[w], imageId, d)) ==> forall w :: w in m' ==>
      RestingFor(cfg, m'[w], imageId, d)
  {
    hide DesiredByName, AtRest;
  }

  // ---------------------------------------------------------------- genuine containers

  /** What reconciling all these records hashes. */
  ghost function HashedAll(cfg: Config, m: map<string, Record>, imageId: string): set<Preimage>
  {
    set w, p | w in m && p in Hashed(cfg, m[w].snapshot, imageId) :: p
  }

  lemma MoreGenuine(cfg: Config, known: set<Preimage>, more: set<Preimage>, d: Docker)
    requires known <= more
    ensures AllGenuine(cfg, known, d) ==> AllGenuine(cfg, more, d)
  {
  }

  /** Only containers of these workers changed, and all are still genuine. */
  ghost predicate Swept(cfg: Config, all: set<Preimage>, genuine: bool, ws: set<string>, d: Docker, d': Docker)
  {
    OthersKept(d, d', ws) && (genuine ==> AllGenuine(cfg, all, d'))
  }

  lemma SweptNot(cfg: Config, known: set<Preimage>, all: set<Preimage>, ws: set<string>, d: Docker)
    requires known <= all
    ensures Swept(cfg, all, AllGenuine(cfg, known, d), ws, d, d)
  {
    hide Genuine;
    MoreGenuine(cfg, known, all, d);
  }

  lemma SweptStep(cfg: Config, all: set<Preimage>, genuine: bool, workers: map<string, Record>, r: Record, w: string,
                  imageId: string, d: Docker, d': Docker, d'': Docker)
    requires RecordsOk(workers) && w in workers && r.snapshot == workers[w].snapshot
    requires HashedAll(cfg, workers, imageId) <= all && Swept(cfg, all, genuine, workers.Keys, d, d')
    requires FrameOf(w, d', d'') && OldOrMade(cfg, w, Wanted(cfg, r, imageId), d', d'')
    ensures Swept(cfg, all, genuine, workers.Keys, d, d'')
  {
    hide AllGenuine, Hashed, DesiredByName, FrameOf, OldOrMade, OthersKept;
    OthersStep(d, d', d'', w, workers.Keys);
    if genuine {
      RunKeepsGenuine(cfg, all, r.snapshot, imageId, d', d'');
      assert Hashed(cfg, r.snapshot, imageId) <= HashedAll(cfg, workers, imageId);
      assert all + Hashed(cfg, r.snapshot, imageId) == all;
    }
  }

  lemma SweptMeans(cfg: Config, all: set<Preimage>, genuine: bool, ws: set<string>, d: Docker, d': Docker)
    requires Swept(cfg, all, genuine, ws, d, d')
    ensures OthersKept(d, d', ws) && (genuine ==> AllGenuine(cfg, all, d'))
  {
  }

  lemma SameHashed(cfg: Config, m: map<string, Record>, m': map<string, Record>, imageId: string)
    requires SameSnapshots(m, m')
    ensures HashedAll(cfg, m, imageId) == HashedAll(cfg, m', imageId)
  {
  }

  lemma WrittenStaysOk(dir: Path, m: map<string, Record>, r: Record)
    requires Reachable(r.snapshot) && r.snapshot.workerId != "" && RecordsOk(m)
    ensures RecordsOk(Written(dir, m, r.snapshot.workerId, r))
  {
    hide FileOf;
  }

  lemma RecordsStayOk(m: map<string, Record>, r: Record)
    requires Reachable(r.snapshot) && r.snapshot.workerId != "" && RecordsOk(m)
    ensures RecordsOk(m[r.snapshot.workerId := r])
  {
  }

  // ---------------------------------------------------------------- what Upsert achieves

  /** Only the record of `w` changed, in memory, and perhaps on disk. */
  ghost predicate Installed(dir: Path, w: string, workers: map<string, Record>, workers': map<string, Record>,
                            disk: map<string, Record>, disk': map<string, Record>)
  {
    && w in workers' && workers' == workers[w := workers'[w]]
    && (disk' == disk || (w in disk' && disk' == Written(dir, disk, w, disk'[w])
                          && disk'[w].snapshot == workers'[w].snapshot))
  }

  /** Seeing and removing works: what expiry relies on. */
  predicate Clearing(trust: Call -> Trust)
  {
    trust(ListContainers).Sure? && trust(InspectContainer).Sure? && trust(RemoveContainer).Sure?
  }

  /** One of the three always fails. */
  predicate Stuck(trust: Call -> Trust)
  {
    trust(ListContainers).Broken? || trust(InspectContainer).Broken? || trust(RemoveContainer).Broken?
  }

  /** Reconciling cannot even start. */
  predicate Blind(trust: Call -> Trust)
  {
    trust(InspectImage).Broken? || trust(ListContainers).Broken?
  }

  /** Success means that a stub of this record runs, or that none is wanted; and that much is success, if the stub
      image, the list of containers and the file can be had. */
  ghost predicate Earned(cfg: Config, trust: Call -> Trust, alive: bool, imageId: string, r: Record, ok: bool,
                         d': Docker)
  {
    var w, wanted := r.snapshot.workerId, Wanted(cfg, r, imageId);
    && (ok ==> (r.managed != {} || wanted == map[]) && Stands(w, wanted, d', r.managed))
    && (alive && Looking(trust) && trust(WriteFile).Sure? ==>
          (ok <==> r.managed != {} || wanted == map[]) && Stands(w, wanted, d', r.managed))
  }

  ghost predicate RefreshOutcome(cfg: Config, trust: Call -> Trust, alive: bool, imageId: string, r: Record, ok: bool,
                                 managed: set<string>, d: Docker, d': Docker)
  {
    var w := r.snapshot.workerId;
    && (alive && Calm(trust) ==> MineOf(d', w).Keys <= managed)
    && (alive && Flawless(trust) && trust(WriteFile).Sure? && NamesFree(d, w, Wanted(cfg, r, imageId)) ==>
          ok && SettledFor(cfg, r, managed, imageId, d, d'))
    && (Blind(trust) ==> !ok && managed == {} && d' == d)
    && Earned(cfg, trust, alive, imageId, r, ok, d')
    && (alive && Deaf(trust) && MineOf(d, w) == map[] ==> managed == {} && Wanted(cfg, r, imageId).Keys <= d'.Keys)
  }

  /** In a flawless world the post succeeds and settles the worker. When reconciling cannot start, the post
      fails, and the list of `w` is empty from then on: it is complete exactly if there is no container of `w`.
      When nothing can be written, the post fails, and the lists are complete exactly if they were before and
      the worker was in memory or had no container. When replies of creates are lost, a worker without containers gets
      all it wants and lists none. */
  ghost predicate InstallOutcome(cfg: Config, trust: Call -> Trust, alive: bool, imageId: string, r: Record, ok: bool,
                                 managed: set<string>, workers: map<string, Record>, workers': map<string, Record>,
                                 d: Docker, d': Docker)
  {
    var w := r.snapshot.workerId;
    && (alive && Flawless(trust) && trust(WriteFile).Sure? && NamesFree(d, w, Wanted(cfg, r, imageId)) ==>
          ok && SettledFor(cfg, r, managed, imageId, d, d'))
    && (alive && Blind(trust) && trust(WriteFile).Sure? ==>
          && !ok && r.managed == {} && d' == d
          && (Traced(d', workers') <==> TracedBut(d, workers, w) && NoneOf(d, w)))
    && (trust(WriteFile).Broken? ==>
          && !ok && r.managed == (if w in workers then workers[w].managed else {}) && d' == d
          && (Traced(d', workers') <==> Traced(d, workers) && Held(d, workers, w)))
    && Earned(cfg, trust, alive, imageId, r, ok, d')
    && (alive && Deaf(trust) && trust(WriteFile).Sure? && NoneOf(d, w) ==>
          r.managed == {} && Wanted(cfg, r, imageId).Keys <= d'.Keys)
  }

  ghost predicate TracedBut(d: Docker, workers: map<string, Record>, w: string)
  {
    forall v :: v in workers && v != w ==> Listed(d, workers, v)
  }

  lemma NotPersisted(cfg: Config, trust: Call -> Trust, alive: bool, imageId: string, r: Record,
                     workers: map<string, Record>, workers': map<string, Record>, d: Docker)
    requires var w := r.snapshot.workerId;
             && workers' == workers[w := r] && r.managed == (if w in workers then workers[w].managed else {})
    requires alive ==> !trust(WriteFile).Sure?
    ensures InstallOutcome(cfg, trust, alive, imageId, r, false, {}, workers, workers', d, d)
  {
    hide Mine, Wanted, Blind, Deaf, Flawless, NamesFree, SettledFor, Stands;
    var w := r.snapshot.workerId;
    assert Listed(d, workers', w) <==> (if w in workers then Listed(d, workers, w) else NoneOf(d, w));
    assert forall v :: v in workers && v != w ==> (Listed(d, workers', v) <==> Listed(d, workers, v));
  }

  lemma Refreshed(cfg: Config, trust: Call -> Trust, alive: bool, imageId: string, r: Record, ok: bool,
                  managed: set<string>, workers: map<string, Record>, workers': map<string, Record>, d: Docker,
                  d': Docker)
    requires RefreshOutcome(cfg, trust, alive, imageId, r, ok, managed, d, d')
    requires workers' == workers[r.snapshot.workerId := r] && r.managed == managed
    requires !trust(WriteFile).Broken?
    ensures InstallOutcome(cfg, trust, alive, imageId, r, ok, managed, workers, workers', d, d')
    ensures alive && Calm(trust) ==> MineOf(d', r.snapshot.workerId).Keys <= managed
  {
    hide Mine, Wanted, Blind, Deaf, Flawless, NamesFree, SettledFor, Calm, Earned;
    var w := r.snapshot.workerId;
    assert NoneOf(d, w) ==> MineOf(d, w) == map[];
    if managed == {} && d' == d {
      assert Listed(d, workers', w) <==> NoneOf(d, w);
      assert forall v :: v in workers && v != w ==> (Listed(d, workers', v) <==> Listed(d, workers, v));
    }
  }

  /** What running the reconciler for `w` does to orphan-freedom. */
  lemma RefreshKeeps(d: Docker, d': Docker, disk: map<string, Record>, disk': map<string, Record>, w: string)
    requires FrameOf(w, d, d') && w != "" && w in disk' && disk.Keys <= disk'.Keys
    ensures OrphanFree(d, disk) ==> OrphanFree(d', disk')
  {
    hide FrameOf;
    if OrphanFree(d, disk) {
      MoreRecordsKeepOrphanFree(d, disk, disk');
      FrameKeepsOrphanFree(d, d', disk', w);
    }
  }

  /** And to the lists. */
  lemma RefreshLists(d: Docker, d': Docker, workers: map<string, Record>, workers': map<string, Record>, w: string)
    requires FrameOf(w, d, d') && w in workers' && workers' == workers[w := workers'[w]]
    ensures Traced(d, workers) && MineOf(d', w).Keys <= workers'[w].managed ==> Traced(d', workers')
  {
    hide FrameOf, Listed;
    if Traced(d, workers) && MineOf(d', w).Keys <= workers'[w].managed {
      ListedFrom(d', workers', w);
      OthersStayListed(d, d', workers, workers', w);
    }
  }

  lemma ListedFrom(d: Docker, workers: map<string, Record>, w: string)
    requires w in workers && MineOf(d, w).Keys <= workers[w].managed
    ensures Listed(d, workers, w)
  {
    forall n | n in d && Mine(d[n], w) ensures n in workers[w].managed {
      assert n in MineOf(d, w);
    }
  }

  /** The records written by Upsert make a step of the ledger. */
  lemma InstallRecorded(now: int, now': int, workers: map<string, Record>, disk: map<string, Record>,
                        workers': map<string, Record>, disk': map<string, Record>, inMemory: Record, onDisk: Record,
                        ok: bool)
    requires var s := inMemory.snapshot;
             && onDisk.snapshot == s && now <= inMemory.updatedAt <= now' && now <= onDisk.updatedAt <= now'
             && workers' == workers[s.workerId := inMemory]
             && (disk' == disk[s.workerId := onDisk] || (disk' == disk && !ok))
             && (s.workerId in workers ==> s.capturedAt > workers[s.workerId].snapshot.capturedAt)
    ensures var s := inMemory.snapshot;
            Ledger.RecordedAfterGate(BooksOf(now, workers, disk), BooksOf(now', workers', disk'), s.workerId,
                                     s.capturedAt, ok)
  {
    var w := inMemory.snapshot.workerId;
    SetEntries(workers, w, inMemory);
    SetEntries(disk, w, onDisk);
  }

  /** What a post does to files that are not shared: a post of the ledger, and no orphan. */
  lemma InstalledAlone(dir: Path, now: int, now': int, d: Docker, d': Docker, workers: map<string, Record>,
                       workers': map<string, Record>, disk: map<string, Record>, disk': map<string, Record>, w: string,
                       ok: bool)
    requires Alone(dir, disk, w) && w != "" && FrameOf(w, d, d') && (d' == d || w in disk')
    requires w in workers' && workers' == workers[w := workers'[w]] && workers'[w].snapshot.workerId == w
    requires now <= workers'[w].updatedAt <= now'
    requires w in workers ==> workers'[w].snapshot.capturedAt > workers[w].snapshot.capturedAt
    requires (disk' == disk && !ok) || (w in disk' && disk' == Written(dir, disk, w, disk'[w])
             && disk'[w].snapshot == workers'[w].snapshot && now <= disk'[w].updatedAt <= now')
    ensures Ledger.RecordedAfterGate(BooksOf(now, workers, disk), BooksOf(now', workers', disk'), w,
                                     workers'[w].snapshot.capturedAt, ok)
    ensures OrphanFree(d, disk) ==> OrphanFree(d', disk')
  {
    hide FrameOf, OrphanFree, BooksOf, Ledger.RecordedAfterGate, Written, Alone;
    var r := workers'[w];
    if !(disk' == disk && !ok) {
      AloneWrites(dir, disk, w, disk'[w]);
      InstallRecorded(now, now', workers, disk, workers', disk', r, disk'[w], ok);
    } else {
      InstallRecorded(now, now', workers, disk, workers', disk', r, r, ok);
    }
    if w in disk' {
      RefreshKeeps(d, d', disk, disk', w);
    }
  }

  lemma SetEntries(m: map<string, Record>, w: string, r: Record)
    ensures Entries(m[w := r]) == Entries(m)[w := Ledger.Entry(r.snapshot.capturedAt, r.updatedAt)]
  {
  }

  /** hasSnapshotIssue */
  method HasSnapshotIssue(issues: seq<Issue>) returns (found: bool)
    ensures found <==> exists i :: i in issues && i.scope == "snapshot"
  {
    for k := 0 to |issues|
      invariant forall i :: i in issues[..k] ==> i.scope != "snapshot"
    {
      if issues[k].scope == "snapshot" {
        return true;
      }
      assert issues[..k + 1] == issues[..k] + [issues[k]];
    }
    assert issues[..|issues|] == issues;
    return false;
  }

  lemma NotRefused(s: Snapshot)
    ensures !Refused(s) <==> s.workerId != "" && Reachable(s)
    ensures !Refused(s) ==>
      Validated(s).workerId == s.workerId && Validated(s).capturedAt == s.capturedAt && Reachable(Validated(s))
  {
  }

  /** Before the first write only the stamp and the snapshot of the record are new. */
  lemma ListKept(d: Docker, workers: map<string, Record>, workers': map<string, Record>, w: string)
    requires w in workers' && workers' == workers[w := workers'[w]]
    requires workers'[w].managed == (if w in workers then workers[w].managed else {})
    ensures Traced(d, workers) && Held(d, workers, w) ==> Traced(d, workers')
  {
    if Traced(d, workers) && Held(d, workers, w) {
      forall v | v in workers' ensures Listed(d, workers', v) {
        assert v in workers ==> Listed(d, workers, v);
      }
    }
  }
}
