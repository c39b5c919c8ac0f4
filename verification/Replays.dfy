/** Where replay protection ends: each run here makes the receiver acknowledge one request twice. */
module Replays {
  import opened Strings
  import opened Model
  import opened Desired
  import opened Resolve
  import opened Paths
  import opened Hosts
  import opened Reconciler
  import opened Stores
  import opened Rebuilds
  import opened Receivers
  import opened Orphans
  import Ledger

  ghost predicate InTime(r: Receiver, q: Request, now: int)
  {
    Ledger.InWindow(r.policy, q.timestamp, now)
  }

  /** The request carries this snapshot, which can be accepted. */
  ghost predicate Carries(r: Receiver, q: Request, s: Snapshot)
  {
    && q.authentic && q.body == Some(s) && s.capturedAt == q.timestamp != ZERO_TIME && !Refused(s)
    && s.workerId in r.roster
  }

  function Asked(cfg: Config, s: Snapshot, imageId: string): map<string, StubSpec>
  {
    DesiredByName(cfg, Validated(s), imageId)
  }

  /** All these names are taken by containers of `w`. */
  ghost predicate Housed(d: Docker, w: string, wanted: map<string, StubSpec>)
  {
    forall n :: n in wanted ==> n in d && Mine(d[n], w)
  }

  lemma HousedIsFree(d: Docker, w: string, wanted: map<string, StubSpec>)
    requires Housed(d, w, wanted)
    ensures NamesFree(d, w, wanted)
  {
  }

  /** Nobody but `w` itself takes its containers away. */
  lemma HousedStays(d: Docker, d': Docker, w: string, wanted: map<string, StubSpec>, v: string, ws: set<string>)
    requires Housed(d, w, wanted) && ((FrameOf(v, d, d') && v != w) || (OthersKept(d, d', ws) && w !in ws))
    ensures Housed(d', w, wanted)
  {
  }

  lemma SettledHouses(cfg: Config, r: Record, managed: set<string>, imageId: string, d: Docker, d': Docker)
    requires SettledFor(cfg, r, managed, imageId, d, d')
    ensures Housed(d', r.snapshot.workerId, Wanted(cfg, r, imageId))
  {
    hide Wanted;
    forall n | n in Wanted(cfg, r, imageId) ensures n in d' && Mine(d'[n], r.snapshot.workerId) {
      assert n in MineOf(d', r.snapshot.workerId);
    }
  }

  lemma SureIsFlawless()
    ensures Flawless(AllSure()) && Calm(AllSure())
  {
  }

  /** The one waiting snapshot, of a worker that is not in memory, is taken up, and all calls work. */
  method TakeOnce(r: Receiver, s: Snapshot)
    requires r.Valid() && |r.inbox| == 1 && r.inbox[0].snapshot == s && r.host.alive && r.host.trust == AllSure()
    requires !Refused(s) && s.workerId !in r.store.workers
    modifies r, r.store, r.host
    ensures r.Valid() && r.store == old(r.store) && r.inbox == [] && r.host.imageId == old(r.host.imageId)
    ensures r.host.trust == AllSure() && r.host.now >= old(r.host.now)
    ensures old(r.Chronicled()) ==> r.Chronicled()
    ensures r.log == old(r.log) || r.log == old(r.log) + [Ledger.Receipt(s.workerId, s.capturedAt)]
    ensures FrameOf(s.workerId, old(r.host.docker), r.host.docker)
    ensures r.store.workers.Keys == old(r.store.workers).Keys + {s.workerId}
    ensures r.host.alive ==>
      && s.workerId in r.host.disk
      && r.host.disk == Written(r.host.dir, old(r.host.disk), s.workerId, r.host.disk[s.workerId])
    ensures r.host.alive && old(NamesFree(r.host.docker, s.workerId, Asked(r.cfg, s, r.host.imageId))) ==>
      && r.log == old(r.log) + [Ledger.Receipt(s.workerId, s.capturedAt)]
      && Housed(r.host.docker, s.workerId, Asked(r.cfg, s, r.host.imageId))
  {
    hide RecordsOk, OrphanFree, UniqueIds, Traced, AllHeld, Wanted, SettledFor, Validated, DesiredByName;
    hide NamesFree, Refused, Flawless, Mine, Apart, FrameOf, Written, Housed;
    hide Calm, Receiver.Chronicled, Receiver.Safe, Receiver.Seen, Receiver.Authentic, Receiver.Refines;
    ghost var d := r.host.docker;
    NotRefused(s);
    r.Process(0);
    SureIsFlawless();
    WantedOfSnapshot(r.cfg, r.store.workers[s.workerId], s, r.host.imageId);
    if r.host.alive && NamesFree(d, s.workerId, Asked(r.cfg, s, r.host.imageId)) {
      SettledHouses(r.cfg, r.store.workers[s.workerId], r.store.workers[s.workerId].managed, r.host.imageId, d,
                    r.host.docker);
    }
  }

  /** A request arrives and, if it is admitted, is taken up. */
  method PostOnce(r: Receiver, q: Request, s: Snapshot) returns (admitted: bool)
    requires r.Valid() && r.inbox == [] && r.host.alive && r.host.trust == AllSure()
    requires Carries(r, q, s) && s.workerId !in r.store.workers
    modifies r, r.store, r.host
    ensures r.Valid() && r.store == old(r.store) && r.inbox == [] && r.host.imageId == old(r.host.imageId)
    ensures r.host.trust == AllSure() && r.host.now >= old(r.host.now)
    ensures old(r.Chronicled()) ==> r.Chronicled()
    ensures InTime(r, q, old(r.host.now)) && InTime(r, q, r.host.now) ==> admitted
    ensures r.log == old(r.log) || r.log == old(r.log) + [Ledger.Receipt(s.workerId, s.capturedAt)]
    ensures FrameOf(s.workerId, old(r.host.docker), r.host.docker)
    ensures admitted ==> r.store.workers.Keys == old(r.store.workers).Keys + {s.workerId}
    ensures admitted && r.host.alive ==>
      s.workerId in r.host.disk
      && r.host.disk == Written(r.host.dir, old(r.host.disk), s.workerId, r.host.disk[s.workerId])
    ensures admitted && r.host.alive && old(NamesFree(r.host.docker, s.workerId, Asked(r.cfg, s, r.host.imageId))) ==>
      && r.log == old(r.log) + [Ledger.Receipt(s.workerId, s.capturedAt)]
      && Housed(r.host.docker, s.workerId, Asked(r.cfg, s, r.host.imageId))
  {
    hide Receiver.Chronicled, NamesFree, Asked, FrameOf, Written, Housed, Refused, RecordsOk, OrphanFree, UniqueIds;
    hide Apart, Receiver.Safe, Receiver.Seen, Receiver.Authentic;
    r.Arrive(q);
    admitted := r.inbox != [];
    FrameOfNothing(s.workerId, r.host.docker);
    if admitted {
      TakeOnce(r, s);
    }
  }

  /** The process is stopped and a new one starts. */
  method Restart(r: Receiver, start: Call -> Trust)
    requires r.Valid()
    modifies r, r.host
    ensures r.Valid() && fresh(r.store) && r.inbox == [] && r.log == old(r.log) && r.host.trust == AllSure()
    ensures r.host.imageId == old(r.host.imageId) && r.host.now >= old(r.host.now)
    ensures r.store.workers.Keys <= Shelved(r.host.dir, old(r.host.disk))
    ensures start(ReadFile).Broken? ==> r.store.workers == map[]
    ensures OthersKept(old(r.host.docker), r.host.docker, r.store.workers.Keys)
  {
    hide RecordsOk, OrphanFree, UniqueIds, Traced, AllHeld, Restored, Calm, Flawless, Undisputed, RestingFor;
    hide Receiver.Chronicled, Receiver.Safe, Receiver.Seen, Receiver.Authentic, OthersKept, Shelved, Unclaimed;
    r.Die();
    r.Turn(start);
    ghost var _, _ := r.Start();
    r.Turn(AllSure());
  }

  ghost predicate Untouched(r: Receiver, s: Snapshot)
    reads r, r.store, r.host
  {
    r.Valid() && r.inbox == [] && r.log == [] && r.host.alive && Orphans.Fresh(r.store) && Welcome(r.store, s)
  }

  lemma UntouchedIsFree(r: Receiver, s: Snapshot)
    requires Untouched(r, s)
    ensures NamesFree(r.host.docker, s.workerId, Asked(r.cfg, s, r.host.imageId))
    ensures r.store.workers == map[] && r.host.disk == map[]
  {
    FreshFacts(r.store, s);
  }

  /** The same authentic request comes twice, the second time after a start that could read no file, or that
      did not look where this worker's file is. Unless the process dies during the first post, or the window
      closes, both are acknowledged. */
  method ReplayAfterStart(r: Receiver, q: Request, s: Snapshot, start: Call -> Trust) returns (acknowledged: bool)
    requires Untouched(r, s) && Carries(r, q, s)
    requires start(ReadFile).Broken? || !TopLevel(r.host.dir, s.workerId)
    modifies r, r.store, r.host
    ensures acknowledged ==> |r.log| > 0
    ensures InTime(r, q, old(r.host.now)) && InTime(r, q, r.host.now) && r.host.alive && acknowledged ==>
      !Ledger.NoReplay(r.log)
  {
    hide Receiver.Chronicled, NamesFree, Asked, FrameOf, Written, Housed, Refused, OthersKept, TopLevel;
    hide Orphans.Fresh, Welcome, Apart, Receiver.Safe, Receiver.Seen, Receiver.Authentic, RecordsOk, OrphanFree;
    hide UniqueIds;
    UntouchedIsFree(r, s);
    r.Turn(AllSure());
    var admitted := PostOnce(r, q, s);
    acknowledged := admitted && r.host.alive;
    if acknowledged {
      ghost var d, wanted := r.host.docker, Asked(r.cfg, s, r.host.imageId);
      Restart(r, start);
      HousedStays(d, r.host.docker, s.workerId, wanted, "", r.store.workers.Keys);
      HousedIsFree(r.host.docker, s.workerId, wanted);
      if r.host.alive {
        admitted := PostOnce(r, q, s);
        assert admitted && r.host.alive ==> r.log[0] == r.log[1];
      }
    }
  }

  /** Between the two, another worker posts whose state file is the same: a start at which all calls work finds
      no record of the first. */
  method ReplayOfOverwritten(r: Receiver, q: Request, s: Snapshot, q': Request, s': Snapshot)
    returns (acknowledged: bool)
    requires Untouched(r, s) && Carries(r, q, s) && Carries(r, q', s') && s'.workerId != s.workerId
    requires FileOf(r.host.dir, s'.workerId) == FileOf(r.host.dir, s.workerId)
    modifies r, r.store, r.host
    ensures acknowledged ==> |r.log| > 0
    ensures InTime(r, q, old(r.host.now)) && InTime(r, q, r.host.now) && r.host.alive && acknowledged ==>
      !Ledger.NoReplay(r.log)
  {
    hide Receiver.Chronicled, NamesFree, Asked, FrameOf, Housed, Refused, OthersKept, FileOf, Orphans.Fresh, Welcome;
    hide Apart, Receiver.Safe, Receiver.Seen, Receiver.Authentic, RecordsOk, OrphanFree, UniqueIds, TopLevel;
    UntouchedIsFree(r, s);
    r.Turn(AllSure());
    ghost var wanted := Asked(r.cfg, s, r.host.imageId);
    var admitted := PostOnce(r, q, s);
    acknowledged := admitted && r.host.alive;
    if !acknowledged {
      return;
    }
    ghost var d := r.host.docker;
    var other := PostOnce(r, q', s');
    acknowledged := other && r.host.alive;
    if !acknowledged {
      return;
    }
    assert s.workerId !in r.host.disk;
    HousedStays(d, r.host.docker, s.workerId, wanted, s'.workerId, {});
    d := r.host.docker;
    Restart(r, AllSure());
    HousedStays(d, r.host.docker, s.workerId, wanted, "", r.store.workers.Keys);
    HousedIsFree(r.host.docker, s.workerId, wanted);
    if r.host.alive {
      ghost var n := |r.log|;
      admitted := PostOnce(r, q, s);
      assert admitted && r.host.alive ==> r.log[0] == r.log[n];
    }
  }

  /** For every unsafe policy: the first post claims the largest captured_at the window allows, its record
      expires as early as it can, and meanwhile the same request has arrived again and waits no longer
      than the policy allows for. If the process lives and no time passes but what is idled away here, both
      posts are acknowledged. */
  method ReplayAfterExpiry(r: Receiver, q: Request, s: Snapshot)
    returns (ghost idle: nat, ghost checkedAt: int, ghost takenUp: int)
    requires Untouched(r, s) && Carries(r, q, s) && r.Chronicled() && r.Separate() && !Ledger.Safe(r.policy)
    requires r.policy.window > 0 ==> q.timestamp == r.host.now + r.policy.window
    modifies r, r.store, r.host
    ensures r.host.alive && r.host.now == old(r.host.now) + idle ==>
      !Ledger.NoReplay(r.log) && takenUp - checkedAt <= r.policy.delay
  {
    hide NamesFree, Asked, FrameOf, Housed, Refused, OthersKept, Orphans.Fresh, Welcome, RemovedOnly, Written;
    hide Apart, Receiver.Safe, Receiver.Seen, Receiver.Authentic, RecordsOk, OrphanFree, UniqueIds, TopLevel;
    hide Receiver.Chronicled;
    idle, checkedAt, takenUp := 0, 0, 0;
    UntouchedIsFree(r, s);
    r.Turn(AllSure());
    var admitted := PostOnce(r, q, s);
    if !admitted || !r.host.alive {
      return;
    }
    StampOf(r, s.workerId);
    HousedIsFree(r.host.docker, s.workerId, Asked(r.cfg, s, r.host.imageId));
    var most := r.policy.ttl + 1;
    var ready := if r.policy.window > 0 && most > 2 * r.policy.window then 2 * r.policy.window else most;
    idle, checkedAt, takenUp := AgainAfterExpiry(r, q, s, ready, most - ready);
    assert r.host.alive && r.host.now == old(r.host.now) + idle ==> r.log[0] == r.log[1];
  }

  /** The request arrives again after `ready`, and is taken up after another `wait`, as soon as the record of
      its worker has expired. */
  method AgainAfterExpiry(r: Receiver, q: Request, s: Snapshot, ready: nat, wait: nat)
    returns (ghost idle: nat, ghost checkedAt: int, ghost takenUp: int)
    requires r.Valid() && r.inbox == [] && r.host.alive && r.host.trust == AllSure() && Carries(r, q, s)
    requires r.policy.ttl > 0 && ready + wait == r.policy.ttl + 1
    requires s.workerId in r.store.workers && r.store.workers[s.workerId].updatedAt <= r.host.now
    requires NamesFree(r.host.docker, s.workerId, Asked(r.cfg, s, r.host.imageId))
    modifies r, r.store, r.host
    ensures r.host.now >= old(r.host.now) + idle
    ensures r.host.alive && r.host.now == old(r.host.now) + idle && InTime(r, q, old(r.host.now) + ready) ==>
      r.log == old(r.log) + [Ledger.Receipt(s.workerId, s.capturedAt)] && takenUp - checkedAt <= wait
  {
    hide NamesFree, Asked, FrameOf, Housed, Refused, RemovedOnly, Written;
    hide Apart, Receiver.Safe, Receiver.Seen, Receiver.Authentic, RecordsOk, OrphanFree, UniqueIds;
    hide Receiver.Chronicled;
    ghost var d, workers := r.host.docker, r.store.workers;
    r.host.Sleep(ready);
    r.Arrive(q);
    idle, checkedAt, takenUp := ready, r.host.now, r.host.now;
    if r.inbox == [] {
      return;
    }
    r.host.Sleep(wait);
    idle := ready + wait;
    ghost var at := r.Prune();
    if !r.host.alive {
      return;
    }
    FreeAfterExpiry(d, r.host.docker, workers, workers.Keys - r.store.workers.Keys, s.workerId,
                    Asked(r.cfg, s, r.host.imageId));
    takenUp := r.host.now;
    TakeOnce(r, s);
  }

  lemma StampOf(r: Receiver, w: string)
    requires r.Chronicled() && r.Separate() && r.host.alive && w in r.store.workers
    ensures r.store.workers[w].updatedAt <= r.host.now
  {
    hide Ledger.Run, Entries;
  }

  lemma FreeAfterExpiry(d: Docker, d': Docker, workers: map<string, Record>, gone: set<string>, w: string,
                        wanted: map<string, StubSpec>)
    requires RemovedOnly(d, d', workers, gone) && NamesFree(d, w, wanted)
    ensures NamesFree(d', w, wanted)
  {
  }
}
