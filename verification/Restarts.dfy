/** What a start is good for: the workers it finds are not forgotten for another time to live. */
module Restarts {
  import opened Strings
  import opened Model
  import opened Desired
  import opened Paths
  import opened Hosts
  import opened Reconciler
  import opened Stores
  import opened Rebuilds
  import opened Receivers
  import Ledger

  lemma LoadedIsUndisputed(cfg: Config, disk: map<string, Record>, workers: map<string, Record>, imageId: string,
                           d: Docker)
    requires Undisputed(cfg, disk, imageId, d) && SameSnapshots(FoundOf(disk, workers), workers)
    ensures Undisputed(cfg, workers, imageId, d)
  {
    hide DesiredByName, NamesFree;
    forall w | w in workers ensures w in disk && workers[w].snapshot == disk[w].snapshot {
      assert w in FoundOf(disk, workers);
    }
  }

  lemma NobodyGone(d: Docker, d': Docker, workers: map<string, Record>)
    requires RemovedOnly(d, d', workers, {})
    ensures d' == d
  {
    hide Mine;
    forall n | n in d ensures n in d' {
    }
  }

  /** However long the receiver was down: when all calls work and no names are disputed, a tick of the pruning loop
      within a time to live after the start forgets none of the workers whose files were found, and removes
      nothing. */
  method StartThenPrune(r: Receiver) returns (ghost loaded: set<string>, ghost docker: Docker, ghost at: int)
    requires r.Valid() && !r.host.alive && Flawless(r.host.trust) && Reading(r.host.trust)
    requires Undisputed(r.cfg, r.host.disk, r.host.imageId, r.host.docker)
    modifies r, r.host
    ensures r.Valid()
    ensures r.host.alive ==> loaded == Shelved(r.host.dir, old(r.host.disk))
    ensures r.host.alive && at - old(r.host.now) <= r.policy.ttl ==>
      r.store.workers.Keys == loaded && r.host.docker == docker
    ensures r.host.alive ==> forall w :: w in loaded && w in r.store.workers ==>
      RestingFor(r.cfg, r.store.workers[w], r.host.imageId, docker)
  {
    hide RecordsOk, OrphanFree, UniqueIds, Undisputed, RestingFor, AsRecreated, Unclaimed, AllRenewed, InSync;
    hide OthersKept, RemovedOnly, Apart, SameSnapshots, Shelved;
    hide Receiver.Chronicled, Receiver.Safe, Receiver.Seen, Receiver.Authentic, Receiver.Separate, Receiver.Listable;
    ghost var disk := r.host.disk;
    ghost var _, _ := r.Start();
    docker, loaded, at := r.host.docker, r.store.workers.Keys, r.host.now;
    LoadedIsUndisputed(r.cfg, disk, r.store.workers, r.host.imageId, old(r.host.docker));
    ghost var workers := r.store.workers;
    if !r.host.alive {
      return;
    }
    at := r.Prune();
    if r.host.alive && at - old(r.host.now) <= r.policy.ttl {
      assert loaded - r.store.workers.Keys == {};
      NobodyGone(docker, r.host.docker, workers);
    }
  }
}
