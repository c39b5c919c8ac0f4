/** The receiver process: requests arrive and wait, are taken into the store, expire, and the process
    may die at any call and be started again. */
module Receivers {
  import opened Strings
  import opened Model
  import opened Desired
  import opened Resolve
  import opened Hosts
  import opened Reconciler
  import opened HashSkip
  import opened Paths
  import opened Stores
  import opened Rebuilds
  import Ledger

  /** The zero value of a time, the beginning of year 1, in nanoseconds from the beginning of 1970. */
  const ZERO_TIME := -62_135_596_800_000_000_000

  /** A request to /v1/snapshot: whether token, size and signature are in order, the signed
      timestamp, and the decoded body. */
  datatype Request = Request(authentic: bool, timestamp: int, body: Option<Snapshot>)

  /** A snapshot that passed the window check and waits for the store's lock. */
  datatype Pending = Pending(snapshot: Snapshot, checkedAt: int)

  datatype Op =
    | Arrive(request: Request)
    | Process(which: nat)
    | Prune
    | Kill
    | Start
    | Outside(docker: Docker, nextId: nat, imageId: string)
    | Turn(trust: Call -> Trust)

  /** What is left of a request that passes the checks at time `now`. */
  function Admitted(p: Ledger.Policy, r: Request, now: int): (s: Option<Snapshot>)
    ensures s.Some? ==> s.value.capturedAt == r.timestamp && Ledger.InWindow(p, r.timestamp, now) && r.authentic
  {
    if !r.authentic || !Ledger.InWindow(p, r.timestamp, now) || r.body.None? then None
    else if r.body.value.capturedAt == ZERO_TIME then Some(r.body.value.(capturedAt := r.timestamp))
    else if r.body.value.capturedAt == r.timestamp then r.body
    else None
  }

  /** A captured_at of the first of January of year 1 counts as not given, and becomes the signed time. */
  lemma UnsetTimeIsStamped(p: Ledger.Policy, r: Request, now: int)
    requires r.authentic && Ledger.InWindow(p, r.timestamp, now) && r.body.Some?
    requires r.body.value.capturedAt == -62_135_596_800 * 1_000_000_000
    ensures Admitted(p, r, now) == Some(r.body.value.(capturedAt := r.timestamp))
  {
  }

  ghost predicate Stamped(m: map<string, Record>, now: int)
  {
    forall w :: w in m ==> m[w].updatedAt <= now
  }

  /** Loading the files makes a restart step of the ledger, with the files that could not be read. */
  lemma LoadReloads(from: int, to: int, disk: map<string, Record>, unread: set<string>, workers': map<string, Record>,
                    disk': map<string, Record>, mem: map<string, Ledger.Entry>)
    requires from <= to && Stamped(disk, from)
    requires SameSnapshots(disk, disk') && Later(disk, disk', from, to)
    requires SameSnapshots(disk - unread, workers') && Later(disk - unread, workers', from, to)
    ensures Ledger.Reloaded(Ledger.Books(from, mem, Entries(disk)), BooksOf(to, workers', disk'), unread)
    ensures Stamped(disk', to) && Stamped(workers', to)
  {
    assert Entries(disk) - unread == Entries(disk - unread);
  }

  /** The ledger state agrees with the clock, the files, the log and, while the process lives, with memory. */
  ghost predicate Describes(l: Ledger.Ledger, now: int, workers: map<string, Record>, disk: map<string, Record>,
                            log: seq<Ledger.Receipt>, alive: bool)
  {
    && l.accepted == log && l.books.clock == now && l.books.disk == Entries(disk) && Stamped(disk, now)
    && (alive ==> l.books.mem == Entries(workers) && Stamped(workers, now))
  }

  /** No start so far failed to read a file. */
  ghost predicate AllRead(events: seq<Ledger.Event>)
  {
    forall e :: e in events && e.Restart? ==> e.unread == {}
  }

  /** The surroundings were like this before the run, and every turn they take keeps them so. */
  ghost predicate Throughout(like: (Call -> Trust) -> bool, trust: Call -> Trust, ops: seq<Op>)
  {
    like(trust) && forall i :: 0 <= i < |ops| && ops[i].Turn? ==> like(ops[i].trust)
  }

  predicate Reading(trust: Call -> Trust)
  {
    trust(ReadFile).Sure?
  }

  predicate CalmReading(trust: Call -> Trust)
  {
    Calm(trust) && trust(ReadFile).Sure?
  }

  predicate CalmWriting(trust: Call -> Trust)
  {
    Calm(trust) && trust(WriteFile).Sure?
  }

  class Receiver {
    const host: Host
    const cfg: Config
    const policy: Ledger.Policy
    const snapshotHash: Snapshot -> string
    ghost const roster: set<string>  // the ids of all workers that ever post
    var store: Store
    var inbox: seq<Pending>
    var log: seq<Ledger.Receipt>  // every snapshot ever acknowledged
    ghost var states: seq<Ledger.Ledger>
    ghost var events: seq<Ledger.Event>
    ghost var known: set<Preimage>  // what was ever hashed for a stub

    /** The files are in order, requests that wait passed their checks, and memory is the store's as
        long as the process lives. */
    ghost predicate Valid()
      reads this, host, store
    {
      && store.host == host && store.cfg == cfg && store.ttl == policy.ttl && store.snapshotHash == snapshotHash
      && host.Valid() && RecordsOk(host.disk) && RecordsOk(store.workers)
      && host.disk.Keys <= roster && store.workers.Keys <= roster
      && AllAdmitted(inbox, host.now)
    }

    ghost predicate AllAdmitted(qs: seq<Pending>, now: int)
    {
      forall q :: q in qs ==>
        && q.snapshot.workerId in roster && q.checkedAt <= now
        && Ledger.InWindow(policy, q.snapshot.capturedAt, q.checkedAt)
    }

    lemma Admits(q: Pending, now: int, later: int)
      requires now <= later && AllAdmitted([q], now)
      ensures q.snapshot.workerId in roster && q.checkedAt <= now
      ensures Ledger.InWindow(policy, q.snapshot.capturedAt, q.checkedAt)
      ensures forall qs :: AllAdmitted(qs, now) ==> AllAdmitted(qs, later)
    {
      assert q in [q];
    }

    /** No two workers have the same state file. */
    ghost predicate Separate()
    {
      Apart(host.dir, roster)
    }

    /** All state files are where a new process looks for them. */
    ghost predicate Listable()
    {
      forall w :: w in roster ==> TopLevel(host.dir, w)
    }

    /** The history is a run of the ledger that, if no files are shared, ends in the store's books. */
    ghost predicate Chronicled()
      reads this, host, store
    {
      && Ledger.Run(policy, states, events) && |states| == |events| + 1
      && (Separate() ==> Described())
    }

    ghost predicate Described()
      requires |states| == |events| + 1
      reads this, host, store
    {
      Describes(states[|events|], host.now, store.workers, host.disk, log, host.alive)
    }

    /** No stub container without a record on disk, at any moment, and complete lists in memory. */
    ghost predicate Safe()
      reads this, host, store
    {
      (Separate() ==> OrphanFree(host.docker, host.disk)) && (host.alive ==> Traced(host.docker, store.workers))
    }

    /** Every worker with stub containers is in memory. */
    ghost predicate Seen()
      reads this, host, store
    {
      host.alive ==> AllHeld(host.docker, store.workers)
    }

    /** Every managed container was made for something that was hashed. */
    ghost predicate Authentic()
      reads this, host
    {
      AllGenuine(cfg, known, host.docker)
    }

    constructor (host: Host, cfg: Config, policy: Ledger.Policy, snapshotHash: Snapshot -> string,
                 ghost roster: set<string>)
      requires host.Valid() && host.disk == map[] && forall n :: n in host.docker ==> !IsManaged(host.docker[n])
      ensures this.host == host && this.policy == policy && this.cfg == cfg && this.roster == roster
      ensures Valid() && Chronicled() && Safe() && Seen() && Authentic() && log == [] && inbox == [] && AllRead(events)
      ensures fresh(store) && store.workers == map[]
    {
      this.host, this.cfg, this.policy, this.snapshotHash, this.roster := host, cfg, policy, snapshotHash, roster;
      store := new Store(host, cfg, policy.ttl, snapshotHash);
      inbox, log, known := [], [], {};
      states, events := [Ledger.Ledger(Ledger.Books(host.now, map[], map[]), [])], [];
      new;
      assert forall n, w :: n in host.docker && w != "" && Mine(host.docker[n], w) ==> IsManaged(host.docker[n]);
    }

    /** One more event of the ledger. */
    ghost method Chronicle(books: Ledger.Books, accepted: seq<Ledger.Receipt>, e: Ledger.Event)
      requires Ledger.Run(policy, states, events) && |states| == |events| + 1
      requires Ledger.Next(policy, states[|events|], Ledger.Ledger(books, accepted), e)
      modifies this`states, this`events
      ensures Ledger.Run(policy, states, events) && |states| == |events| + 1
      ensures states[|events|] == Ledger.Ledger(books, accepted)
      ensures old(AllRead(events)) && (e.Restart? ==> e.unread == {}) ==> AllRead(events)
    {
      states, events := states + [Ledger.Ledger(books, accepted)], events + [e];
    }

    /** ValidateRequest and the captured_at check of handleSnapshot. */
    method Arrive(r: Request)
      requires Valid() && (r.body.Some? ==> r.body.value.workerId in roster)
      modifies this`inbox, this`states, this`events, host`now
      ensures Valid() && (old(Chronicled()) ==> Chronicled()) && (old(Safe()) ==> Safe())
      ensures (old(Seen()) ==> Seen()) && (old(Authentic()) ==> Authentic())
      ensures host.now >= old(host.now) && (old(AllRead(events)) ==> AllRead(events))
      ensures match Admitted(policy, r, host.now)
              case Some(s) => inbox == old(inbox) + [Pending(s, host.now)]
              case None => inbox == old(inbox)
    {
      var now := host.Now();
      if old(Chronicled()) && Separate() {
        Chronicle(states[|events|].books.(clock := host.now), log, Ledger.Wait);
      }
      if !r.authentic || !Ledger.InWindow(policy, r.timestamp, now) || r.body.None? {
        return;
      }
      var s := r.body.value;
      if s.capturedAt == ZERO_TIME {
        s := s.(capturedAt := r.timestamp);
      }
      if s.capturedAt != r.timestamp {
        return;
      }
      inbox := inbox + [Pending(s, now)];
    }

    /** A waiting request gets its turn, in any order and however long it has waited. */
    method Process(which: nat)
      requires Valid() && host.alive && which < |inbox|
      modifies this, store, host
      ensures Valid() && (old(Chronicled()) ==> Chronicled()) && (old(AllRead(events)) ==> AllRead(events))
      ensures store == old(store) && host.trust == old(host.trust) && host.imageId == old(host.imageId)
      ensures host.now >= old(host.now)
      ensures inbox == old(inbox)[..which] + old(inbox)[which + 1..]
      ensures var s := old(inbox)[which].snapshot;
              if old(store.Acceptable(s))
              then Taken(s, old(log), old(host.now), old(store.workers), old(host.disk), old(host.docker))
                   && Refines(s, old(known), old(host.docker))
              else log == old(log) && unchanged(host) && unchanged(store)
      ensures Separate() && old(OrphanFree(host.docker, host.disk)) ==> OrphanFree(host.docker, host.disk)
      ensures Calm(host.trust) && (host.trust(WriteFile).Sure? || old(Seen())) && old(Safe()) ==> Safe()
      ensures old(Seen()) ==> Seen()
      ensures old(Authentic()) ==> Authentic()
    {
      hide Taken, Refines, Describes, AllGenuine, Traced, AllHeld, Ledger.Run, RecordsOk, OrphanFree, Calm, UniqueIds;
      hide Apart, AllRead, Separate, Ledger.RecordedAfterGate, BooksOf;
      var q := inbox[which];
      inbox := inbox[..which] + inbox[which + 1..];
      TakeUp(q);
    }

    /** The store's answer to a request that was admitted. */
    method TakeUp(q: Pending)
      requires Valid() && host.alive && AllAdmitted([q], host.now)
      modifies this`log, this`states, this`events, this`known, store, host
      ensures Valid() && (old(Chronicled()) ==> Chronicled()) && (old(AllRead(events)) ==> AllRead(events))
      ensures host.trust == old(host.trust) && host.imageId == old(host.imageId) && host.now >= old(host.now)
      ensures if old(store.Acceptable(q.snapshot))
              then Taken(q.snapshot, old(log), old(host.now), old(store.workers), old(host.disk), old(host.docker))
                   && Refines(q.snapshot, old(known), old(host.docker))
              else log == old(log) && unchanged(host) && unchanged(store)
      ensures Separate() && old(OrphanFree(host.docker, host.disk)) ==> OrphanFree(host.docker, host.disk)
      ensures Calm(host.trust) && (host.trust(WriteFile).Sure? || old(Seen())) && old(Safe()) ==> Safe()
      ensures old(Seen()) ==> Seen()
      ensures old(Authentic()) ==> Authentic()
    {
      hide Taken, Refines, Answered, Describes, AllGenuine, Traced, Refused, AllHeld, Ledger.Run, RecordsOk, OrphanFree;
      hide Calm, UniqueIds, Apart, AllRead, Separate, Store.Single, Store.Recordable, AllAdmitted, Ledger.InWindow;
      assert q in [q];
      EachSingle();
      Admits(q, host.now, host.now);
      CanRecord(q.snapshot.workerId);
      ghost var docker, workers, disk, now, before := host.docker, store.workers, host.disk, host.now, log;
      ghost var acceptable := store.Acceptable(q.snapshot);
      ghost var ok, managed := Ask(q.snapshot);
      Admits(q, now, host.now);
      if acceptable {
        if old(Chronicled()) && Separate() {
          Enter(q, ok, managed, before, now, workers, disk, docker);
        }
        HeldAfterPost(q.snapshot, ok, managed, before, now, workers, disk, docker);
        Learn(q.snapshot, ok, managed, before, now, workers, disk, docker);
      }
    }

    /** Upsert, and the acknowledgement. */
    method Ask(s: Snapshot) returns (ghost posted: bool, ghost managed: set<string>)
      requires host.Valid() && RecordsOk(host.disk) && RecordsOk(store.workers)
      requires store.host == host && store.cfg == cfg && store.snapshotHash == snapshotHash
      requires Separate() ==> store.Single(s.workerId)
      modifies this`log, store, host
      ensures host.Valid() && RecordsOk(host.disk) && RecordsOk(store.workers) && (host.alive ==> old(host.alive))
      ensures host.trust == old(host.trust) && host.imageId == old(host.imageId) && host.now >= old(host.now)
      ensures if old(store.Acceptable(s))
              then Answered(s, posted, managed, old(log), old(host.now), old(store.workers), old(host.disk),
                            old(host.docker))
              else log == old(log) && unchanged(host) && unchanged(store)
      ensures Separate() && old(OrphanFree(host.docker, host.disk)) ==> OrphanFree(host.docker, host.disk)
      ensures host.alive && Calm(host.trust) && old(Traced(host.docker, store.workers) && store.Recordable(s.workerId))
              ==> Traced(host.docker, store.workers)
    {
      hide Wanted, InstallOutcome, Refused, OldOrMade, Traced, FrameOf, Ledger.RecordedAfterGate, RecordsOk;
      hide OrphanFree, Calm, UniqueIds, Apart, Written, BooksOf, Separate, Store.Single, Store.Recordable, Validated;
      NotRefused(s);
      var ok, stubs := store.Upsert(s);
      if ok {
        log := log + [Ledger.Receipt(s.workerId, s.capturedAt)];
      }
      posted, managed := ok, stubs;
    }

    /** What Upsert promises about an acceptable snapshot. */
    ghost predicate Answered(s: Snapshot, ok: bool, managed: set<string>, log: seq<Ledger.Receipt>, now: int,
                             workers: map<string, Record>, disk: map<string, Record>, docker: Docker)
      reads this`log, this`store, host, store
    {
      var w := s.workerId;
      && w != "" && Installed(host.dir, w, workers, store.workers, disk, host.disk) && w in store.workers
      && FrameOf(w, docker, host.docker)
      && (host.alive && host.trust(WriteFile).Sure? ==>
            w in host.disk && host.disk == Written(host.dir, disk, w, host.disk[w]))
      && Validated(s).workerId == w
      && store.workers[w].snapshot == Validated(s).(hash := store.workers[w].snapshot.hash)
      && store.workers[w].snapshot.hash == (if s.hash == "" then snapshotHash(Validated(s)) else s.hash)
      && (ok ==> w in host.disk && host.disk[w] == store.workers[w] && store.workers[w].managed == managed)
      && InstallOutcome(cfg, host.trust, host.alive, host.imageId, store.workers[w], ok, managed, workers,
                        store.workers, docker, host.docker)
      && OldOrMade(cfg, w, Wanted(cfg, store.workers[w], host.imageId), docker, host.docker)
      && (Separate() ==> Ledger.RecordedAfterGate(BooksOf(now, workers, disk),
                                                  BooksOf(host.now, store.workers, host.disk), w, s.capturedAt, ok))
      && this.log == if ok then log + [Ledger.Receipt(w, s.capturedAt)] else log
    }

    lemma HeldAfterPost(s: Snapshot, ok: bool, managed: set<string>, log: seq<Ledger.Receipt>, now: int,
                        workers: map<string, Record>, disk: map<string, Record>, docker: Docker)
      requires Answered(s, ok, managed, log, now, workers, disk, docker)
      ensures s.workerId != "" && store.workers.Keys <= workers.Keys + {s.workerId}
      ensures host.disk.Keys <= disk.Keys + {s.workerId}
      ensures AllHeld(docker, workers) ==> AllHeld(host.docker, store.workers)
    {
      hide FrameOf, Held, InstallOutcome, OldOrMade, Wanted, Validated, BooksOf, Ledger.RecordedAfterGate, Separate;
      OthersStayListed(docker, host.docker, workers, store.workers, s.workerId);
    }

    lemma EachSingle()
      requires host.disk.Keys <= roster && store.host == host
      ensures Separate() ==> forall w :: w in roster ==> store.Single(w)
    {
      if Separate() {
        ApartIsAlone(host.dir, host.disk, roster);
      }
    }

    lemma CanRecord(w: string)
      requires host.alive && store.host == host
      ensures w != "" && (host.trust(WriteFile).Sure? || Seen()) ==> store.Recordable(w)
    {
    }

    /** The post that has just been taken up becomes an event. */
    ghost method Enter(q: Pending, ok: bool, managed: set<string>, before: seq<Ledger.Receipt>, now: int,
                       workers: map<string, Record>, disk: map<string, Record>, docker: Docker)
      requires Ledger.Run(policy, states, events) && |states| == |events| + 1 && Separate()
      requires Describes(states[|events|], now, workers, disk, before, true)
      requires q.checkedAt <= now && Ledger.InWindow(policy, q.snapshot.capturedAt, q.checkedAt)
      requires Answered(q.snapshot, ok, managed, before, now, workers, disk, docker)
      modifies this`states, this`events
      ensures Chronicled() && (old(AllRead(events)) ==> AllRead(events))
    {
      hide Ledger.Run, Ledger.Next, Describes, Ledger.InWindow, Ledger.RecordedAfterGate, BooksOf, Separate, FrameOf;
      hide InstallOutcome, OldOrMade, Wanted, Validated, Installed, Written;
      var w, cap := q.snapshot.workerId, q.snapshot.capturedAt;
      PostDescribed(policy, states[|events|], now, host.now, workers, disk, store.workers, host.disk,
                    before, log, w, cap, q.checkedAt, ok);
      Chronicle(BooksOf(host.now, store.workers, host.disk), log, Ledger.Post(w, cap, q.checkedAt, ok));
    }

    /** What taking up an acceptable snapshot comes to. It is acknowledged only if a stub for it runs or none is
        wanted; and then always, if image, list and file can be had. */
    ghost predicate Taken(s: Snapshot, log: seq<Ledger.Receipt>, now: int, workers: map<string, Record>,
                          disk: map<string, Record>, docker: Docker)
      reads this, host, store
    {
      var w := s.workerId;
      && Installed(host.dir, w, workers, store.workers, disk, host.disk) && FrameOf(w, docker, host.docker)
      && (Separate() ==> Ledger.RecordedAfterGate(BooksOf(now, workers, disk),
                                                  BooksOf(host.now, store.workers, host.disk), w, s.capturedAt,
                                                  this.log != log))
      && (host.alive && host.trust(WriteFile).Sure? ==>
            w in host.disk && host.disk == Written(host.dir, disk, w, host.disk[w]))
      && store.workers[w].snapshot == Validated(s).(hash := store.workers[w].snapshot.hash)
      && store.workers[w].snapshot.hash == (if s.hash == "" then snapshotHash(Validated(s)) else s.hash)
      && Earned(cfg, host.trust, host.alive, host.imageId, store.workers[w], this.log != log, host.docker)
      && (this.log == log || this.log == log + [Ledger.Receipt(w, s.capturedAt)])
      && (this.log != log ==> w in host.disk && host.disk[w] == store.workers[w])
      && (Reached(s, docker) ==>
            && this.log == log + [Ledger.Receipt(w, s.capturedAt)]
            && SettledFor(cfg, store.workers[w], store.workers[w].managed, host.imageId, docker, host.docker))
    }

    /** Nothing was in the way of the worker's new stubs. */
    ghost predicate Reached(s: Snapshot, docker: Docker)
      reads this, host, store
    {
      && host.alive && Flawless(host.trust) && host.trust(WriteFile).Sure? && s.workerId in store.workers
      && NamesFree(docker, s.workerId, Wanted(cfg, store.workers[s.workerId], host.imageId))
    }

    /** Leaving matching stubs alone came to the same as recreating them all. */
    ghost predicate Refines(s: Snapshot, hashed: set<Preimage>, docker: Docker)
      reads this, host, store
    {
      && s.workerId in store.workers
      && (AllGenuine(cfg, hashed, docker) && Reached(s, docker) && NoHashCollision(cfg, known) ==>
            Shapes(host.docker)
            == RecreateAll(cfg, s.workerId, Wanted(cfg, store.workers[s.workerId], host.imageId), host.imageId, docker))
    }

    /** What has just been hashed is known from now on. */
    ghost method Learn(s: Snapshot, ok: bool, managed: set<string>, log: seq<Ledger.Receipt>, now: int,
                       workers: map<string, Record>, disk: map<string, Record>, docker: Docker)
      requires Answered(s, ok, managed, log, now, workers, disk, docker)
      modifies this`known
      ensures Taken(s, log, now, workers, disk, docker) && Refines(s, old(known), docker)
      ensures AllGenuine(cfg, old(known), docker) ==> Authentic()
    {
      hide Validated, InstallOutcome, FrameOf, OldOrMade, Wanted, Taken, Refines, AllGenuine, Hashed, Installed;
      hide Written, Ledger.RecordedAfterGate, BooksOf, Separate;
      ghost var r, hashed := store.workers[s.workerId], known;
      known := known + Hashed(cfg, r.snapshot, host.imageId);
      GenuinePost(cfg, hashed, r, s.workerId, host.imageId, docker, host.docker);
      TakenFrom(s, ok, managed, log, now, workers, disk, docker, hashed);
    }

    lemma TakenFrom(s: Snapshot, ok: bool, managed: set<string>, log: seq<Ledger.Receipt>, now: int,
                    workers: map<string, Record>, disk: map<string, Record>, docker: Docker, hashed: set<Preimage>)
      requires Answered(s, ok, managed, log, now, workers, disk, docker)
      requires known == hashed + Hashed(cfg, store.workers[s.workerId].snapshot, host.imageId)
      ensures Taken(s, log, now, workers, disk, docker)
      ensures Refines(s, hashed, docker)
    {
      hide Validated, Flawless, NamesFree, Settles, DesiredByName, Blind, Deaf, NoHashCollision, AllGenuine, Hashed;
      hide Written, FrameOf, Ledger.RecordedAfterGate, BooksOf, Separate, OldOrMade, Earned;
      var r := store.workers[s.workerId];
      if AllGenuine(cfg, hashed, docker) && Reached(s, docker) && NoHashCollision(cfg, known) {
        SkipRefinesRecreate(cfg, hashed, r.snapshot, host.imageId, docker, host.docker);
      }
    }

    /** pruneLoop */
    method Prune() returns (ghost at: int)
      requires Valid() && host.alive
      modifies this, store, host
      ensures Valid() && (old(Chronicled()) ==> Chronicled()) && (old(AllRead(events)) ==> AllRead(events))
      ensures store == old(store) && host.trust == old(host.trust) && inbox == old(inbox) && log == old(log)
      ensures host.imageId == old(host.imageId)
      ensures Calm(host.trust) && old(Safe()) ==> Safe()
      ensures Calm(host.trust) && old(Safe()) && old(Seen()) ==> Seen()
      ensures old(Authentic()) ==> Authentic()
      ensures old(host.now) <= at == host.now
      ensures policy.ttl <= 0 ==> store.workers == old(store.workers) && host.disk == old(host.disk)
      ensures policy.ttl > 0 ==>
        store.workers == map w | w in old(store.workers) && at - old(store.workers)[w].updatedAt <= policy.ttl ::
          old(store.workers)[w]
      ensures RemovedOnly(old(host.docker), host.docker, old(store.workers),
                          old(store.workers).Keys - store.workers.Keys)
      ensures forall w :: w in host.disk ==> w in old(host.disk) && host.disk[w] == old(host.disk)[w]
      ensures Separate() && policy.ttl > 0 ==>
        Ledger.Expired(policy, BooksOf(at, old(store.workers), old(host.disk)), store.Books(), at,
                       old(store.workers).Keys - store.workers.Keys)
    {
      hide FrameOf, Ledger.Run, Ledger.Expired, RecordsOk, OrphanFree, Traced, AllHeld, UniqueIds;
      hide RemovedOnly, Listed, AllGenuine;
      hide Ledger.Next, Describes, Apart;
      if Separate() {
        FewerApart(host.dir, roster, store.workers.Keys + host.disk.Keys);
      }
      ghost var d := host.docker;
      ghost var workers, disk, start := store.workers, host.disk, host.now;
      var t := host.Now();
      at := t;
      ghost var gone := store.RemoveExpired(t, policy);
      assert gone == workers.Keys - store.workers.Keys;
      GenuineExpiry(cfg, known, d, host.docker, workers, gone);
      if old(Chronicled()) && Separate() {
        PruneDescribed(policy, states[|events|], start, t, gone, workers, disk, store.workers, host.disk, log);
        Chronicle(BooksOf(t, workers, disk), log, Ledger.Wait);
        if policy.ttl > 0 {
          Chronicle(store.Books(), log, Ledger.Prune(t, gone));
        }
      }
    }

    /** A new process loads the files and reconciles. If the directory cannot be listed, it gives up; otherwise it
        goes on, unless it has died on the way. */
    method Start() returns (ghost lived: bool, ghost listed: bool)
      requires Valid() && !host.alive
      modifies this, host
      ensures Valid() && fresh(store) && host.trust == old(host.trust) && host.imageId == old(host.imageId)
      ensures host.alive == (lived && listed) && (lived && host.trust(ListFiles).Sure? ==> listed)
      ensures inbox == [] && log == old(log)
      ensures old(Chronicled()) ==> Chronicled()
      ensures Listable() && Reading(host.trust) && old(AllRead(events)) ==> AllRead(events)
      ensures Restored(old(host.disk), host.disk, store.workers, old(host.now), host.now) && host.now >= old(host.now)
      ensures store.workers.Keys <= Shelved(host.dir, old(host.disk))
      ensures host.alive && Reading(host.trust) ==> store.workers.Keys == Shelved(host.dir, old(host.disk))
      ensures host.trust(ReadFile).Broken? ==> store.workers == map[]
      ensures Reconciled(cfg, known, host.trust, host.alive, old(Authentic()), old(host.disk), host.disk, store.workers,
                         old(host.now), host.imageId, old(host.docker), host.docker)
      ensures old(OrphanFree(host.docker, host.disk)) ==> OrphanFree(host.docker, host.disk)
      ensures Calm(host.trust) && old(Safe()) ==> Safe()
      ensures CalmReading(host.trust) && Separate() && Listable() && old(Safe()) ==> Seen()
      ensures old(Authentic()) ==> Authentic()
    {
      hide Ledger.Run, Ledger.Next, RecordsOk, OrphanFree, UniqueIds, SameSnapshots, Stamped, Restored, Describes;
      hide Calm, Flawless, Traced, AllHeld, AllGenuine, Undisputed, RestingFor, AllRead, TopLevel, Shelved, Apart;
      hide Listable, Separate, Ledger.InWindow, Reconciled;
      ghost var disk, from := host.disk, host.now;
      DeadDescribes(host.now, store.workers, disk, log);
      lived, listed := Boot();
      AllShelved(disk);
      if old(Chronicled()) && Separate() {
        ghost var l', unread := StartDescribed(policy, states[|events|], from, host.now, disk, store.workers,
                                               host.disk, log, host.alive);
        Chronicle(l'.books, log, Ledger.Restart(unread));
      }
    }

    /** The new process itself. */
    method Boot() returns (ghost lived: bool, ghost listed: bool)
      requires Valid() && !host.alive
      modifies this`store, this`inbox, this`known, host
      ensures Valid() && fresh(store) && host.trust == old(host.trust) && host.imageId == old(host.imageId)
      ensures host.alive == (lived && listed) && (lived && host.trust(ListFiles).Sure? ==> listed)
      ensures host.now >= old(host.now)
      ensures inbox == []
      ensures Restored(old(host.disk), host.disk, store.workers, old(host.now), host.now)
      ensures store.workers.Keys <= Shelved(host.dir, old(host.disk))
      ensures host.alive && Reading(host.trust) ==> store.workers.Keys == Shelved(host.dir, old(host.disk))
      ensures host.trust(ReadFile).Broken? ==> store.workers == map[]
      ensures Reconciled(cfg, known, host.trust, host.alive, old(Authentic()), old(host.disk), host.disk, store.workers,
                         old(host.now), host.imageId, old(host.docker), host.docker)
      ensures old(OrphanFree(host.docker, host.disk)) ==> OrphanFree(host.docker, host.disk)
      ensures Calm(host.trust) && old(Safe()) ==> Safe()
      ensures CalmReading(host.trust) && Separate() && Listable() && old(Safe()) ==> Seen()
      ensures old(Authentic()) ==> Authentic()
    {
      hide RecordsOk, OrphanFree, UniqueIds, OthersKept, SameSnapshots, Restored;
      hide Calm, Flawless, Traced, AllHeld, AllGenuine, HashedAll, Undisputed, RestingFor, TopLevel, Shelved, Apart;
      hide Separate, Listable, BooksOf, Ledger.InWindow;
      hide Reconciled, AllRenewed, InSync, FoundOf;
      ghost var disk, from := host.disk, host.now;
      host.Revive();
      store := new Store(host, cfg, policy.ttl, snapshotHash);
      inbox := [];
      var ok := store.Load(known);
      lived, listed := host.alive, ok;
      if !ok {
        host.Kill();
      }
      known := known + HashedAll(cfg, store.workers, host.imageId);
      AllShelved(disk);
      AfterLoad(host.docker, disk, host.disk, store.workers, from, host.now);
      StartRefinesRecreate(cfg, known, host.trust, host.alive, old(Authentic()), disk, host.disk, store.workers, from,
                           host.imageId, old(host.docker), host.docker);
    }

    lemma AllShelved(disk: map<string, Record>)
      requires disk.Keys <= roster
      ensures Listable() ==> Shelved(host.dir, disk) == disk.Keys
    {
      hide TopLevel;
    }

    /** Others change what is theirs. */
    method Outside(docker: Docker, nextId: nat, imageId: string)
      requires Valid()
      modifies host`docker, host`nextId, host`imageId
      ensures Valid() && (old(Chronicled()) ==> Chronicled()) && (old(Safe()) ==> Safe()) && (old(Seen()) ==> Seen())
      ensures old(Authentic()) ==> Authentic()
    {
      ghost var d := host.docker;
      host.Outside(docker, nextId, imageId);
      OutsideKeeps(d, host.docker, store.workers, host.disk);
    }

    /** Any run whatsoever: requests arriving and being taken up in any order, expiry, the process being
        killed between calls or dying inside one, new starts, changes by others, and calls becoming more
        or less reliable. */
    method Run(ops: seq<Op>)
      requires Valid() && Chronicled() && Safe() && Seen() && Authentic() && AllRead(events)
      requires forall i :: 0 <= i < |ops| ==> Enrolled(ops[i])
      modifies this, store, host
      ensures Valid() && Chronicled() && Authentic()
      ensures Separate() && Ledger.Safe(policy) && Ledger.Allowed(policy, Ledger.StaleLost, states, events) ==>
        Ledger.Increasing(log)
      ensures Listable() && Throughout(Reading, old(host.trust), ops) ==> AllRead(events)
      ensures Separate() && Listable() && Throughout(CalmReading, old(host.trust), ops) ==>
        OrphanFree(host.docker, host.disk)
      ensures Separate() && Throughout(CalmWriting, old(host.trust), ops) ==> OrphanFree(host.docker, host.disk)
    {
      hide Valid, Chronicled, Safe, Seen, Authentic, Calm, AllRead, Ledger.Run, Ledger.Safe;
      hide Ledger.Increasing, OrphanFree, Separate, Listable, Enrolled;
      ghost var first := store;
      ghost var read := Listable() && Throughout(Reading, host.trust, ops);
      ghost var reading := Separate() && Listable() && Throughout(CalmReading, host.trust, ops);
      ghost var writing := Throughout(CalmWriting, host.trust, ops);
      for i := 0 to |ops|
        invariant Valid() && Chronicled() && Authentic()
        invariant store == first || fresh(store)
        invariant read ==> Reading(host.trust) && AllRead(events)
        invariant writing ==> CalmWriting(host.trust) && Safe()
        invariant reading ==> CalmReading(host.trust) && Safe() && Seen()
      {
        Do(ops[i]);
      }
      Conclude();
    }

    ghost predicate Enrolled(op: Op)
    {
      op.Arrive? && op.request.body.Some? ==> op.request.body.value.workerId in roster
    }

    /** One step of a run. */
    method Do(op: Op)
      requires Valid() && Enrolled(op)
      modifies this, store, host
      ensures Valid() && (store == old(store) || fresh(store))
      ensures host.trust == if op.Turn? then op.trust else old(host.trust)
      ensures (old(Chronicled()) ==> Chronicled()) && (old(Authentic()) ==> Authentic())
      ensures Listable() && Reading(old(host.trust)) && old(AllRead(events)) ==> AllRead(events)
      ensures CalmWriting(old(host.trust)) && old(Safe()) ==> Safe()
      ensures Separate() && Listable() && CalmReading(old(host.trust)) && old(Safe() && Seen()) ==> Safe() && Seen()
    {
      hide Valid, Chronicled, Safe, Seen, Authentic, Calm, AllRead;
      match op
      case Arrive(r) => Arrive(r);
      case Process(which) => if host.alive && which < |inbox| { Process(which); }
      case Prune => if host.alive { ghost var _ := Prune(); }
      case Kill => Die();
      case Start => if !host.alive { ghost var _, _ := Start(); }
      case Outside(d, nextId, imageId) => Outside(d, nextId, imageId);
      case Turn(trust) => Turn(trust);
    }

    method Die()
      requires Valid()
      modifies host`alive
      ensures Valid() && !host.alive && (old(Chronicled()) ==> Chronicled()) && (old(Safe()) ==> Safe()) && Seen()
      ensures old(Authentic()) ==> Authentic()
    {
      host.Kill();
    }

    method Turn(trust: Call -> Trust)
      requires Valid()
      modifies host`trust
      ensures Valid() && host.trust == trust
      ensures (old(Chronicled()) ==> Chronicled()) && (old(Safe()) ==> Safe()) && (old(Seen()) ==> Seen())
      ensures old(Authentic()) ==> Authentic()
    {
      host.Turn(trust);
    }

    lemma Conclude()
      requires Valid() && Chronicled()
      ensures Separate() && Ledger.Safe(policy) && Ledger.Allowed(policy, Ledger.StaleLost, states, events) ==>
        Ledger.Increasing(log)
      ensures Safe() && Separate() ==> OrphanFree(host.docker, host.disk)
    {
      if Separate() && Ledger.Safe(policy) && Ledger.Allowed(policy, Ledger.StaleLost, states, events) {
        Ledger.AcceptedTimesIncrease(policy, Ledger.StaleLost, states, events);
      }
    }
  }

  lemma PruneDescribed(p: Ledger.Policy, l: Ledger.Ledger, now: int, at: int, gone: set<string>,
                       workers: map<string, Record>, disk: map<string, Record>, workers': map<string, Record>,
                       disk': map<string, Record>,
                       log: seq<Ledger.Receipt>)
    requires Describes(l, now, workers, disk, log, true) && now <= at
    requires p.ttl <= 0 ==> workers' == workers && disk' == disk
    requires p.ttl > 0 ==> Ledger.Expired(p, BooksOf(at, workers, disk), BooksOf(at, workers', disk'), at, gone)
    ensures var waited := Ledger.Ledger(BooksOf(at, workers, disk), log);
            var l' := Ledger.Ledger(BooksOf(at, workers', disk'), log);
            && Ledger.Next(p, l, waited, Ledger.Wait)
            && (p.ttl > 0 ==> Ledger.Next(p, waited, l', Ledger.Prune(at, gone)))
            && forall alive :: Describes(l', at, workers', disk', log, alive)
  {
    if p.ttl > 0 {
      StampsKept(p, BooksOf(at, workers, disk), BooksOf(at, workers', disk'), at, gone, workers, disk, workers', disk');
    }
  }

  /** A start, whether it came through (`alive`) or not. */
  lemma StartDescribed(p: Ledger.Policy, l: Ledger.Ledger, from: int, to: int, disk: map<string, Record>,
                       workers: map<string, Record>,
                       disk': map<string, Record>, log: seq<Ledger.Receipt>, alive: bool)
    returns (l': Ledger.Ledger, unread: set<string>)
    requires Describes(l, from, map[], disk, log, false) && from <= to
    requires Restored(disk, disk', workers, from, to)
    ensures Ledger.Next(p, l, l', Ledger.Restart(unread)) && Describes(l', to, workers, disk', log, alive)
    ensures unread == if alive then disk.Keys - workers.Keys else {}
    ensures l'.accepted == log
  {
    hide SameSnapshots, Later, Ledger.Reloaded, Entries, Stamped;
    var mem := if alive then workers else disk';
    unread := if alive then disk.Keys - workers.Keys else {};
    assert disk - unread == if alive then FoundOf(disk, workers) else disk;
    LoadReloads(from, to, disk, unread, mem, disk', l.books.mem);
    l' := Ledger.Ledger(BooksOf(to, mem, disk'), log);
  }

  lemma DeadDescribes(now: int, workers: map<string, Record>, disk: map<string, Record>, log: seq<Ledger.Receipt>)
    ensures forall l: Ledger.Ledger :: Describes(l, now, workers, disk, log, false) ==>
      Describes(l, now, map[], disk, log, false)
  {
  }

  lemma AfterLoad(d: Docker, disk: map<string, Record>, disk': map<string, Record>, workers: map<string, Record>,
                  from: int, to: int)
    requires Restored(disk, disk', workers, from, to)
    ensures RecordsOk(disk') && disk'.Keys == disk.Keys && workers.Keys <= disk.Keys
    ensures SameSnapshots(FoundOf(disk, workers), workers)
    ensures workers.Keys == disk.Keys ==> SameSnapshots(disk, workers)
    ensures workers.Keys == disk.Keys && OrphanFree(d, disk') ==> AllHeld(d, workers)
  {
    assert workers.Keys == disk.Keys ==> FoundOf(disk, workers) == disk;
  }

  lemma GenuinePost(cfg: Config, known: set<Preimage>, r: Record, w: string, imageId: string, d: Docker, d': Docker)
    requires r.snapshot.workerId == w && FrameOf(w, d, d') && OldOrMade(cfg, w, Wanted(cfg, r, imageId), d, d')
    ensures AllGenuine(cfg, known, d) ==> AllGenuine(cfg, known + Hashed(cfg, r.snapshot, imageId), d')
  {
    hide AllGenuine, Hashed, DesiredByName, FrameOf, OldOrMade;
    if AllGenuine(cfg, known, d) {
      RunKeepsGenuine(cfg, known, r.snapshot, imageId, d, d');
    }
  }

  lemma GenuineExpiry(cfg: Config, known: set<Preimage>, d: Docker, d': Docker, workers: map<string, Record>,
                      gone: set<string>)
    requires RemovedOnly(d, d', workers, gone)
    ensures AllGenuine(cfg, known, d) ==> AllGenuine(cfg, known, d')
  {
    hide Genuine;
  }

  lemma OutsideKeeps(d: Docker, d': Docker, workers: map<string, Record>, disk: map<string, Record>)
    requires SameManaged(d, d')
    ensures OrphanFree(d, disk) ==> OrphanFree(d', disk)
    ensures RecordsOk(workers) && Traced(d, workers) ==> Traced(d', workers)
    ensures AllHeld(d, workers) ==> AllHeld(d', workers)
  {
    forall n, w | n in d' && w != "" && Mine(d'[n], w) ensures n in d && d[n] == d'[n] {
      assert IsManaged(d'[n]);
    }
    if RecordsOk(workers) && Traced(d, workers) {
      forall w | w in workers ensures Listed(d', workers, w) {
        assert Listed(d, workers, w) && w != "";
      }
    }
    if AllHeld(d, workers) {
      forall w | w != "" ensures Held(d', workers, w) {
        assert Held(d, workers, w);
      }
    }
  }

  lemma PostFollows(p: Ledger.Policy, l: Ledger.Ledger, books: Ledger.Books, log: seq<Ledger.Receipt>, w: string,
                    cap: int, checkedAt: int, ok: bool)
    requires checkedAt <= l.books.clock && Ledger.InWindow(p, cap, checkedAt)
    requires Ledger.RecordedAfterGate(l.books, books, w, cap, ok)
    requires log == if ok then l.accepted + [Ledger.Receipt(w, cap)] else l.accepted
    ensures Ledger.Next(p, l, Ledger.Ledger(books, log), Ledger.Post(w, cap, checkedAt, ok))
  {
  }

  lemma PostDescribed(p: Ledger.Policy, l: Ledger.Ledger, now: int, now': int, workers: map<string, Record>,
                      disk: map<string, Record>,
                      workers': map<string, Record>, disk': map<string, Record>, log: seq<Ledger.Receipt>,
                        log': seq<Ledger.Receipt>,
                      w: string, cap: int, checkedAt: int, ok: bool)
    requires Describes(l, now, workers, disk, log, true)
    requires checkedAt <= now && Ledger.InWindow(p, cap, checkedAt)
    requires Ledger.RecordedAfterGate(BooksOf(now, workers, disk), BooksOf(now', workers', disk'), w, cap, ok)
    requires log' == if ok then log + [Ledger.Receipt(w, cap)] else log
    ensures var l' := Ledger.Ledger(BooksOf(now', workers', disk'), log');
            && Ledger.Next(p, l, l', Ledger.Post(w, cap, checkedAt, ok))
            && forall alive :: Describes(l', now', workers', disk', log', alive)
  {
    hide Ledger.RecordedAfterGate, Ledger.InWindow;
    StampsAfter(BooksOf(now, workers, disk), BooksOf(now', workers', disk'), w, cap, ok, workers, disk, workers',
                disk');
    PostFollows(p, l, BooksOf(now', workers', disk'), log', w, cap, checkedAt, ok);
  }

  lemma StampsAfter(b: Ledger.Books, b': Ledger.Books, w: string, cap: int, ok: bool,
                    workers: map<string, Record>, disk: map<string, Record>, workers': map<string, Record>,
                    disk': map<string, Record>)
    requires b == BooksOf(b.clock, workers, disk) && b' == BooksOf(b'.clock, workers', disk')
    requires Ledger.RecordedAfterGate(b, b', w, cap, ok)
    requires Stamped(workers, b.clock) && Stamped(disk, b.clock)
    ensures Stamped(workers', b'.clock) && Stamped(disk', b'.clock)
  {
    forall v | v in workers' ensures workers'[v].updatedAt <= b'.clock {
      assert b'.mem[v].upd == workers'[v].updatedAt;
      assert v != w ==> b.mem[v] == b'.mem[v] && v in workers;
    }
    forall v | v in disk' ensures disk'[v].updatedAt <= b'.clock {
      assert b'.disk[v].upd == disk'[v].updatedAt;
      assert v in b.disk && b.disk[v] == b'.disk[v] ==> v in disk;
    }
  }

  lemma StampsKept(p: Ledger.Policy, b: Ledger.Books, b': Ledger.Books, at: int, gone: set<string>,
                   workers: map<string, Record>, disk: map<string, Record>, workers': map<string, Record>,
                   disk': map<string, Record>)
    requires b == BooksOf(b.clock, workers, disk) && b' == BooksOf(b'.clock, workers', disk')
    requires Ledger.Expired(p, b, b', at, gone)
    requires Stamped(workers, b.clock) && Stamped(disk, b.clock)
    ensures Stamped(workers', b'.clock) && Stamped(disk', b'.clock)
  {
    forall v | v in workers' ensures workers'[v].updatedAt <= b'.clock {
      assert b'.mem[v].upd == workers'[v].updatedAt;
    }
    forall v | v in disk' ensures disk'[v].updatedAt <= b'.clock {
      assert b'.disk[v].upd == disk'[v].updatedAt;
    }
  }
}
