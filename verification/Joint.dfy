/** The agent and the receiver as one system: whatever the two classes do is a step over the network. */
module Joint {
  import opened Strings
  import opened Model
  import opened Desired
  import opened Resolve
  import opened Paths
  import opened Hosts
  import opened Reconciler
  import opened Stores
  import opened Receivers
  import opened Handover
  import opened Network
  import Agents
  import Ledger

  function Snapshots(m: map<string, Record>): map<string, Snapshot>
  {
    map w | w in m :: m[w].snapshot
  }

  /** The network's picture of the receiver is right: of its files always, of its memory while it lives. */
  ghost predicate Shows(n: Net, now: int, workers: map<string, Record>, disk: map<string, Record>,
                        log: seq<Ledger.Receipt>, alive: bool)
  {
    && Describes(n.ledger, now, workers, disk, log, alive)
    && n.files == Snapshots(disk) && (alive ==> n.memory == Snapshots(workers))
  }

  /** What waits at the receiver in the name of `w` was sent by its agent. */
  ghost predicate Honest(w: string, inbox: seq<Pending>, sent: set<Snapshot>)
  {
    forall q :: q in inbox && q.snapshot.workerId == w ==> q.snapshot in sent
  }

  /** A snapshot that was taken up: a post of the ledger, and its validated form in memory and perhaps on disk. */
  lemma TakeIsStep(p: Ledger.Policy, w: string, n: Net, now: int, now': int, workers: map<string, Record>,
                   disk: map<string, Record>, workers': map<string, Record>, disk': map<string, Record>,
                   log: seq<Ledger.Receipt>, log': seq<Ledger.Receipt>, s: Snapshot, checkedAt: int, ok: bool,
                   hash: string, alive: bool)
    returns (n': Net, m: Move)
    requires Shows(n, now, workers, disk, log, true) && !Refused(s) && (s.workerId == w ==> s in n.sent)
    requires checkedAt <= now <= checkedAt + p.delay && Ledger.InWindow(p, s.capturedAt, checkedAt)
    requires Ledger.RecordedAfterGate(BooksOf(now, workers, disk), BooksOf(now', workers', disk'), s.workerId,
                                      s.capturedAt, ok)
    requires s.workerId in workers' && workers' == workers[s.workerId := workers'[s.workerId]]
    requires workers'[s.workerId].snapshot == Validated(s).(hash := hash)
    requires disk' == disk || (s.workerId in disk' && disk' == disk[s.workerId := disk'[s.workerId]]
                               && disk'[s.workerId].snapshot == workers'[s.workerId].snapshot)
    requires ok ==> s.workerId in disk' && disk'[s.workerId] == workers'[s.workerId]
    requires log' == if ok then log + [Ledger.Receipt(s.workerId, s.capturedAt)] else log
    ensures NetStep(p, w, n, n', m) && n'.attempt == n.attempt && n'.adopted == n.adopted && n'.sent == n.sent
    ensures n'.taken == if ok then n.taken + [s] else n.taken
    ensures Shows(n', now', workers', disk', log', alive)
  {
    hide Describes, Refused, Ledger.RecordedAfterGate, Ledger.InWindow, Ledger.Next, BooksOf, NetStep, Validated;
    var v := s.workerId;
    NotRefused(s);
    BooksAre(n.ledger, now, workers, disk, log);
    PostDescribed(p, n.ledger, now, now', workers, disk, workers', disk', log, log', v, s.capturedAt, checkedAt, ok);
    var l' := Ledger.Ledger(BooksOf(now', workers', disk'), log');
    var written := v in disk' && disk' == disk[v := disk'[v]] && disk'[v].snapshot == workers'[v].snapshot;
    SnapshotsWith(workers, v, workers'[v]);
    if written {
      SnapshotsWith(disk, v, disk'[v]);
    }
    n' := n.(ledger := l', memory := Snapshots(workers'), files := Snapshots(disk'),
             taken := if ok then n.taken + [s] else n.taken);
    m := Move.Take(s, hash, checkedAt, ok, written);
    BookedOnDisk(now, workers, disk);
    BookedOnDisk(now', workers', disk');
    MoveIsTake(p, w, n, n', m);
  }

  /** What the ledger's part of the step leaves to check. */
  lemma MoveIsTake(p: Ledger.Policy, w: string, n: Net, n': Net, m: Move)
    requires m.Take? && !Refused(m.snapshot) && (m.snapshot.workerId == w ==> m.snapshot in n.sent)
    requires Ledger.Next(p, n.ledger, n'.ledger, EventOf(m)) && Ledger.Punctual(p, n.ledger, EventOf(m))
    requires m.ok ==> m.written
    requires var v, after, before := m.snapshot.workerId, n'.ledger.books, n.ledger.books;
             if m.written then v in after.disk && after.disk[v].cap == m.snapshot.capturedAt
             else after.disk == before.disk
    requires var v, held := m.snapshot.workerId, Validated(m.snapshot).(hash := m.hash);
             n' == n.(ledger := n'.ledger, memory := n.memory[v := held],
                      files := if m.written then n.files[v := held] else n.files,
                      taken := if m.ok then n.taken + [m.snapshot] else n.taken)
    ensures NetStep(p, w, n, n', m)
  {
    hide Ledger.Next, Refused, Validated;
  }

  lemma SnapshotsWith(m: map<string, Record>, v: string, r: Record)
    ensures Snapshots(m[v := r]) == Snapshots(m)[v := r.snapshot]
  {
  }

  lemma BookedOnDisk(now: int, workers: map<string, Record>, disk: map<string, Record>)
    ensures var b := BooksOf(now, workers, disk);
            && b.clock == now && b.disk == Entries(disk) && b.disk.Keys == disk.Keys
            && forall v :: v in disk ==> b.disk[v].cap == disk[v].snapshot.capturedAt
  {
  }

  lemma BooksAre(l: Ledger.Ledger, now: int, workers: map<string, Record>, disk: map<string, Record>,
                 log: seq<Ledger.Receipt>)
    requires Describes(l, now, workers, disk, log, true)
    ensures l == Ledger.Ledger(BooksOf(now, workers, disk), log)
  {
  }

  lemma PruneIsStep(p: Ledger.Policy, w: string, n: Net, now: int, at: int, gone: set<string>,
                    workers: map<string, Record>, disk: map<string, Record>, workers': map<string, Record>,
                    disk': map<string, Record>, log: seq<Ledger.Receipt>, alive: bool)
    returns (waited: Net, n': Net)
    requires Shows(n, now, workers, disk, log, true) && now <= at
    requires p.ttl <= 0 ==> workers' == workers && disk' == disk
    requires p.ttl > 0 ==> Ledger.Expired(p, BooksOf(at, workers, disk), BooksOf(at, workers', disk'), at, gone)
    requires workers' == workers - gone
    requires forall v :: v in disk' ==> v in disk && disk'[v] == disk[v]
    ensures NetStep(p, w, n, waited, Move.Wait)
    ensures p.ttl > 0 ==> NetStep(p, w, waited, n', Move.Prune(at, gone))
    ensures p.ttl <= 0 ==> n' == waited
    ensures n'.attempt == n.attempt && n'.adopted == n.adopted && n'.sent == n.sent
    ensures Shows(n', at, workers', disk', log, alive)
  {
    hide Ledger.Expired, Ledger.Next, Describes, BooksOf, NetStep;
    PruneDescribed(p, n.ledger, now, at, gone, workers, disk, workers', disk', log);
    BooksAre(n.ledger, now, workers, disk, log);
    waited := n.(ledger := Ledger.Ledger(BooksOf(at, workers, disk), log));
    n' := n.(ledger := Ledger.Ledger(BooksOf(at, workers', disk'), log), memory := Snapshots(workers'),
             files := Snapshots(disk'));
    MoveIsWait(p, w, n, waited);
    BookedOnDisk(at, workers', disk');
    if p.ttl > 0 {
      MoveIsPrune(p, w, waited, n', at, gone);
    }
  }

  lemma MoveIsWait(p: Ledger.Policy, w: string, n: Net, n': Net)
    requires Ledger.Next(p, n.ledger, n'.ledger, Ledger.Wait) && n' == n.(ledger := n'.ledger)
    ensures NetStep(p, w, n, n', Move.Wait)
  {
    hide Ledger.Next;
  }

  lemma MoveIsPrune(p: Ledger.Policy, w: string, n: Net, n': Net, at: int, gone: set<string>)
    requires Ledger.Next(p, n.ledger, n'.ledger, Ledger.Prune(at, gone))
    requires n' == n.(ledger := n'.ledger, memory := n.memory - gone,
                      files := map v | v in n.files && v in n'.ledger.books.disk :: n.files[v])
    ensures NetStep(p, w, n, n', Move.Prune(at, gone))
  {
    hide Ledger.Next;
  }

  /** A start that missed no file whose record is still of use. */
  lemma StartIsStep(p: Ledger.Policy, w: string, n: Net, from: int, to: int, before: map<string, Record>,
                    disk: map<string, Record>, workers: map<string, Record>, disk': map<string, Record>,
                    log: seq<Ledger.Receipt>, alive: bool)
    returns (n': Net, m: Move)
    requires Shows(n, from, before, disk, log, false) && from <= to && Restored(disk, disk', workers, from, to)
    requires alive ==> forall v :: v in disk && v !in workers ==>
      Ledger.Outside(p, to, disk[v].snapshot.capturedAt)
    ensures NetStep(p, w, n, n', m) && n'.attempt == n.attempt && n'.adopted == n.adopted && n'.sent == n.sent
    ensures Shows(n', to, workers, disk', log, alive)
  {
    DeadDescribes(from, before, disk, log);
    var l', unread := StartDescribed(p, n.ledger, from, to, disk, workers, disk', log, alive);
    hide Ledger.Next;
    n' := n.(ledger := l', memory := n.files - unread);
    m := Move.Restart(unread);
    hide Stamped, Later, RecordsOk;
  }

  /** One worker's agent and the receiver. Requests in that worker's name come from the agent, as often, as late
      and in whatever order; other workers may send anything. */
  class System {
    const receiver: Receiver
    const agent: Agents.Agent
    ghost var nets: seq<Net>
    ghost var moves: seq<Move>

    ghost predicate Valid()
      reads this, receiver, receiver.host, receiver.store, agent
    {
      && receiver.Valid() && receiver.Separate() && agent.Valid()
      && NetRun(receiver.policy, agent.cfg.workerId, nets, moves) && |nets| == |moves| + 1
      && Seen(Last())
    }

    ghost function Last(): Net
      requires |nets| == |moves| + 1
      reads this
    {
      nets[|moves|]
    }

    ghost predicate Seen(n: Net)
      reads this, receiver, receiver.host, receiver.store, agent
    {
      && Shows(n, receiver.host.now, receiver.store.workers, receiver.host.disk, receiver.log, receiver.host.alive)
      && Honest(agent.cfg.workerId, receiver.inbox, n.sent) && n.adopted == agent.snapshot
    }

    constructor (receiver: Receiver, agent: Agents.Agent)
      requires receiver.Valid() && receiver.Separate() && agent.Valid() && agent.snapshot == None
      requires receiver.store.workers == map[] && receiver.host.disk == map[] && receiver.log == []
      requires receiver.inbox == []
      ensures this.receiver == receiver && this.agent == agent && Valid()
    {
      this.receiver, this.agent := receiver, agent;
      var books := Ledger.Books(receiver.host.now, map[], map[]);
      nets, moves := [Net(Ledger.Ledger(books, []), map[], map[], [], {}, None, None)], [];
    }

    ghost method Make(n: Net, m: Move)
      requires NetRun(receiver.policy, agent.cfg.workerId, nets, moves) && |nets| == |moves| + 1
      requires NetStep(receiver.policy, agent.cfg.workerId, Last(), n, m)
      modifies this`nets, this`moves
      ensures NetRun(receiver.policy, agent.cfg.workerId, nets, moves) && |nets| == |moves| + 1 && Last() == n
    {
      hide NetStep;
      nets, moves := nets + [n], moves + [m];
    }

    /** The agent's side is as it was, and nothing more was acknowledged. */
    ghost predicate Same(n: Net)
      requires |nets| == |moves| + 1
      reads this
    {
      Last().sent == n.sent && Last().attempt == n.attempt && Last().adopted == n.adopted && Last().taken == n.taken
    }

    /** A request arrives; one in the agent's name is one the agent sent, at any earlier time. */
    method Arrive(q: Request)
      requires Valid() && (q.body.Some? ==> q.body.value.workerId in receiver.roster)
      requires q.body.Some? && q.body.value.workerId == agent.cfg.workerId ==>
        q.body.value in Last().sent && q.body.value.capturedAt != ZERO_TIME
      modifies this`nets, this`moves, receiver`inbox, receiver`states, receiver`events, receiver.host`now
      ensures Valid() && Same(old(Last())) && receiver.host.now >= old(receiver.host.now)
      ensures match Admitted(receiver.policy, q, receiver.host.now)
              case Some(s) => receiver.inbox == old(receiver.inbox) + [Pending(s, receiver.host.now)]
              case None => receiver.inbox == old(receiver.inbox)
    {
      hide Receiver.Valid, Receiver.Separate, Receiver.Chronicled, Receiver.Safe, Receiver.Seen, Receiver.Authentic;
      ghost var n := Last();
      receiver.Arrive(q);
      Make(n.(ledger := n.ledger.(books := n.ledger.books.(clock := receiver.host.now))), Move.Wait);
    }

    /** A waiting snapshot is taken up, in time. */
    method Process(which: nat)
      requires Valid() && receiver.host.alive && which < |receiver.inbox|
      requires receiver.host.now <= receiver.inbox[which].checkedAt + receiver.policy.delay
      modifies this`nets, this`moves, receiver, receiver.store, receiver.host
      ensures Valid() && receiver.store == old(receiver.store) && receiver.host.now >= old(receiver.host.now)
      ensures Last().sent == old(Last().sent) && Last().attempt == old(Last().attempt)
      ensures receiver.host.trust == old(receiver.host.trust) && receiver.host.imageId == old(receiver.host.imageId)
      ensures Last().taken == old(Last().taken)
              || Last().taken == old(Last().taken) + [old(receiver.inbox)[which].snapshot]
      ensures receiver.log == old(receiver.log) <==> Last().taken == old(Last().taken)
      ensures var s := old(receiver.inbox)[which].snapshot;
              old(receiver.store.Acceptable(s)) ==>
                receiver.Taken(s, old(receiver.log), old(receiver.host.now), old(receiver.store.workers),
                               old(receiver.host.disk), old(receiver.host.docker))
    {
      hide Receiver.Chronicled, Receiver.Safe, Receiver.Seen, Receiver.Authentic, Receiver.Refines, Refused, Validated;
      hide Written, Alone, Apart, Shows, NetRun, RecordsOk, FrameOf, UniqueIds, Ledger.RecordedAfterGate;
      hide Receiver.Reached, SettledFor, Ledger.InWindow;
      ghost var host, store := receiver.host, receiver.store;
      ghost var n, q := Last(), receiver.inbox[which];
      ghost var now, workers, disk, log := host.now, store.workers, host.disk, receiver.log;
      ghost var acceptable := store.Acceptable(q.snapshot);
      ApartIsAlone(host.dir, disk, receiver.roster);
      receiver.Process(which);
      if acceptable {
        if q.snapshot.workerId in host.disk {
          AloneWrites(host.dir, disk, q.snapshot.workerId, host.disk[q.snapshot.workerId]);
        }
        ghost var n', m := TakeIsStep(receiver.policy, agent.cfg.workerId, n, now, host.now, workers, disk,
                                      store.workers, host.disk, log, receiver.log, q.snapshot, q.checkedAt,
                                      receiver.log != log,
                                      store.workers[q.snapshot.workerId].snapshot.hash, host.alive);
        Make(n', m);
      }
    }

    method Prune()
      requires Valid() && receiver.host.alive
      modifies this`nets, this`moves, receiver, receiver.store, receiver.host
      ensures Valid() && receiver.store == old(receiver.store) && agent.snapshot == old(agent.snapshot)
    {
      hide Receiver.Chronicled, Receiver.Safe, Receiver.Seen, Receiver.Authentic, Apart, Shows, NetRun, NetStep;
      hide RecordsOk, UniqueIds, Ledger.Expired, RemovedOnly;
      ghost var host, store := receiver.host, receiver.store;
      ghost var n, now, workers, disk, log := Last(), host.now, store.workers, host.disk, receiver.log;
      ghost var at := receiver.Prune();
      ghost var gone := workers.Keys - store.workers.Keys;
      ghost var waited, n' := PruneIsStep(receiver.policy, agent.cfg.workerId, n, now, at, gone, workers, disk,
                                          store.workers, host.disk, log, host.alive);
      Make(waited, Move.Wait);
      if receiver.policy.ttl > 0 {
        Make(n', Move.Prune(at, gone));
      }
    }

    /** The receiver is killed. */
    method Die()
      requires Valid()
      modifies receiver.host`alive
      ensures Valid() && !receiver.host.alive
    {
      receiver.Die();
    }

    /** A new receiver process. What it may miss are records whose time is out of the window for good. */
    method Start()
      requires Valid() && !receiver.host.alive
      requires forall v :: v in receiver.host.disk
                           && (!Reading(receiver.host.trust) || !TopLevel(receiver.host.dir, v)) ==>
                 Ledger.Outside(receiver.policy, receiver.host.now, receiver.host.disk[v].snapshot.capturedAt)
      modifies this`nets, this`moves, receiver, receiver.host
      ensures Valid() && fresh(receiver.store) && agent.snapshot == old(agent.snapshot)
    {
      hide Receiver.Chronicled, Receiver.Safe, Receiver.Seen, Receiver.Authentic, Apart, Shows, NetRun, NetStep;
      hide RecordsOk, UniqueIds, TopLevel, Restored;
      ghost var host := receiver.host;
      ghost var n, now, workers, disk, log := Last(), host.now, receiver.store.workers, host.disk, receiver.log;
      ghost var _, _ := receiver.Start();
      ghost var n', m := StartIsStep(receiver.policy, agent.cfg.workerId, n, now, host.now, workers, disk,
                                     receiver.store.workers, host.disk, log, host.alive);
      Make(n', m);
    }

    method Turn(trust: Call -> Trust)
      requires Valid()
      modifies receiver.host`trust
      ensures Valid() && receiver.host.trust == trust
    {
      receiver.Turn(trust);
    }

    method Outside(docker: Docker, nextId: nat, imageId: string)
      requires Valid()
      modifies receiver.host`docker, receiver.host`nextId, receiver.host`imageId
      ensures Valid()
    {
      receiver.Outside(docker, nextId, imageId);
    }

    /** Ticks and events come while the agent waits, and it takes the trigger. */
    method Wake(signals: nat)
      requires Valid() && agent.Now().phase.Idle?
      modifies agent
      ensures Valid() && agent.Now().phase.Starting? && agent.snapshot == old(agent.snapshot)
    {
      hide Agents.LoopRun;
      agent.Signals(signals + 1);
      ghost var l := agent.Now();
      agent.trigger := false;
      agent.Did(Agents.Act.Take, l.(slot := false, phase := Agents.Starting));
    }

    /** Or it has backed off long enough. */
    method Retry(signals: nat)
      requires Valid() && agent.Now().phase.BackingOff?
      modifies agent
      ensures Valid() && agent.Now().phase.Starting? && agent.snapshot == old(agent.snapshot)
    {
      hide Agents.LoopRun;
      agent.Signals(signals);
      agent.Did(Agents.Act.Retry, agent.Now().(phase := Agents.Starting));
    }

    /** The request of an attempt leaves the agent. */
    ghost method Send(t: Agents.Trip)
      requires Valid() && Agents.Sends(agent.cfg, t)
      modifies this`nets, this`moves
      ensures Valid() && Last().attempt == Some(Agents.Snap(agent.cfg, agent.hash, t))
      ensures Last().sent == old(Last()).sent + {Agents.Snap(agent.cfg, agent.hash, t)}
      ensures Last().adopted == old(Last()).adopted && Last().taken == old(Last()).taken
      ensures var s := Last().attempt.value;
              && s.workerId == agent.cfg.workerId && s.advertiseAddr == agent.cfg.advertiseAddr
              && s.proxyPort == agent.cfg.proxyPort && s.capturedAt == t.now
              && s.containers == Agents.Collected(agent.cfg, t.listing.value).value
    {
      hide NetRun, Agents.Collected;
      Agents.SnapSays(agent.cfg, agent.hash, t);
      ghost var n, s := Last(), Agents.Snap(agent.cfg, agent.hash, t);
      Make(n.(attempt := Some(s), sent := n.sent + {s}), Move.Send(s));
    }

    /** The attempt ends. An acknowledgement is the receiver's, for the request of this attempt. */
    method Sync(t: Agents.Trip) returns (r: Agents.Result)
      requires Valid() && agent.Now().phase.Starting?
      requires Agents.Verdict(agent.cfg, t) == Agents.Synced ==>
        var s := Agents.Snap(agent.cfg, agent.hash, t);
        Last().attempt == Some(s) && s in Last().taken
      modifies this`nets, this`moves, agent
      ensures Valid() && r == Agents.Verdict(agent.cfg, t)
      ensures agent.snapshot
        == if r == Agents.Synced then Some(Agents.Snap(agent.cfg, agent.hash, t)) else old(agent.snapshot)
    {
      hide NetRun, Agents.Verdict, Agents.Snap, Agents.LoopRun;
      ghost var n := Last();
      r := agent.SyncOnce(t);
      if r == Agents.Synced {
        Make(n.(attempt := None, adopted := n.attempt), Move.Acknowledged);
      } else {
        Make(n.(attempt := None), Move.GiveUp);
      }
    }

    /** The snapshot of a trip that is later than all that was sent before is never refused as stale. */
    lemma NewestIsAcceptable(t: Agents.Trip)
      requires Valid() && receiver.host.alive && Agents.Sends(agent.cfg, t)
      requires agent.cfg.workerId != "" && agent.cfg.advertiseAddr != "" && agent.cfg.proxyPort > 0
      requires forall s :: s in Last().sent ==> s.capturedAt < t.now
      ensures receiver.store.Acceptable(Agents.Snap(agent.cfg, agent.hash, t))
    {
      hide NetRun, Agents.Collected, Receiver.Valid;
      Agents.SnapSays(agent.cfg, agent.hash, t);
      HeldWasSent(receiver.policy, agent.cfg.workerId, nets, moves, |moves|);
      var w := agent.cfg.workerId;
      if w in receiver.store.workers {
        assert w in Last().memory;
        var s :| s in Last().sent && s.capturedAt == Last().memory[w].capturedAt;
      }
    }

    /** A trip in a world where all works: the request arrives at once and is taken up. If the receiver lives and
        the window is open for the time of the trip, the agent serves the trip's snapshot from then on. */
    method Exchange(t: Agents.Trip) returns (ghost s: Snapshot)
      requires Valid() && receiver.host.alive && agent.Now().phase.Starting? && Agents.Sends(agent.cfg, t)
      requires agent.cfg.workerId in receiver.roster && Agents.ProperListing(t.listing.value) && t.now != ZERO_TIME
      requires agent.cfg.workerId != "" && agent.cfg.advertiseAddr != "" && agent.cfg.proxyPort > 0
      requires forall s :: s in Last().sent ==> s.capturedAt < t.now
      requires Flawless(receiver.host.trust) && receiver.host.trust(WriteFile).Sure? && receiver.inbox == []
      requires NamesFree(receiver.host.docker, agent.cfg.workerId,
                         DesiredByName(receiver.cfg, Agents.Snap(agent.cfg, agent.hash, t), receiver.host.imageId))
      modifies this`nets, this`moves, agent, receiver, receiver.store, receiver.host
      ensures Valid() && s == Agents.Snap(agent.cfg, agent.hash, t) && s.capturedAt == t.now
      ensures receiver.host.alive && Ledger.InWindow(receiver.policy, t.now, old(receiver.host.now)) &&
              Ledger.InWindow(receiver.policy, t.now, receiver.host.now) ==>
        agent.snapshot == Some(s)
    {
      hide NetRun, Agents.Collected, Agents.LoopRun, Receiver.Valid, Receiver.Taken, Flawless;
      hide Agents.Composed, NamesFree, DesiredByName, Shows, Agents.ProperListing;
      s := Agents.Snap(agent.cfg, agent.hash, t);
      Agents.SnapSays(agent.cfg, agent.hash, t);
      NewestIsAcceptable(t);
      Send(t);
      var containers := Agents.Collect(agent.cfg, t.listing.value);
      var snapshot := Agents.Composed(agent.cfg, agent.hash, t.now, containers.value);
      Arrive(Request(true, t.now, Some(snapshot)));
      var before := |receiver.log|;
      if receiver.inbox != [] {
        ghost var log, now := receiver.log, receiver.host.now;
        ghost var docker, workers, disk := receiver.host.docker, receiver.store.workers, receiver.host.disk;
        Process(0);
        if receiver.host.alive {
          Agents.ComposedIsValid(agent.cfg, agent.hash, t.now, t.listing.value);
          TakenIsLogged(receiver, s, log, now, workers, disk, docker);
        }
      }
      if |receiver.log| > before {
        var _ := Sync(t.(reply := Agents.Acknowledged));
      } else {
        var _ := Sync(t.(reply := Agents.Rejected));
      }
    }

    /** Whatever the two have done and whatever the network did in between, the agent is never ahead of the
        receiver: a record of its worker, in memory or on disk, is at least as new as the snapshot the agent
        serves, and if it is as old, it is that snapshot in its validated form; and if there is none, no request can
        bring the snapshot back. */
    lemma AgentIsNeverAhead()
      requires Valid() && Ledger.Safe(receiver.policy) && agent.snapshot.Some?
      ensures var a, w := agent.snapshot.value, agent.cfg.workerId;
              && a.workerId == w
              && (w in receiver.host.disk ==> AtLeast(receiver.host.disk[w].snapshot, a))
              && (receiver.host.alive ==>
                    if w in receiver.store.workers then AtLeast(receiver.store.workers[w].snapshot, a)
                    else Ledger.Outside(receiver.policy, receiver.host.now, a.capturedAt))
    {
      hide Receiver.Valid, NetRun, HoldsOf;
      AgentNeverAhead(receiver.policy, agent.cfg.workerId, nets, moves, |moves|);
    }

    /** And as long as it is not newer, every stub the receiver wants leads to the container and the service
        it was built from. */
    lemma StubsMeetTheServed(cfg: Config, imageId: string, spec: StubSpec) returns (c: ContainerSpec)
      requires Valid() && Ledger.Safe(receiver.policy) && agent.snapshot.Some? && receiver.host.alive
      requires var w := agent.cfg.workerId;
               && w in receiver.store.workers
               && receiver.store.workers[w].snapshot.capturedAt <= agent.snapshot.value.capturedAt
               && spec in StubsOf(cfg, receiver.store.workers[w].snapshot,
                                  receiver.store.workers[w].snapshot.containers, imageId)
      ensures spec.serviceName in c.services
      ensures Lookup(agent.snapshot.value, spec.containerId, spec.serviceName)
        == Found(c, c.services[spec.serviceName], true)
      ensures c in receiver.store.workers[agent.cfg.workerId].snapshot.containers && spec.containerId == c.id
      ensures cfg.token != "" && Bare(cfg.token) && Bare(spec.containerId) && Bare(spec.serviceName) ==>
        && LoadStub(spec.env).Some?
        && ServesFrom(cfg.token, agent.snapshot.value, LoadStub(spec.env).value, c, spec.serviceName)
    {
      hide ServesFrom, Receiver.Valid, NetRun, StubsOf, Lookup;
      c := StubsMeetTheAgent(receiver.policy, agent.cfg.workerId, nets, moves, |moves|, cfg, imageId, spec);
    }
  }

  lemma TakenIsLogged(r: Receiver, s: Snapshot, log: seq<Ledger.Receipt>, now: int, workers: map<string, Record>,
                      disk: map<string, Record>, docker: Docker)
    requires r.Taken(s, log, now, workers, disk, docker) && r.host.alive && Flawless(r.host.trust)
    requires r.host.trust(WriteFile).Sure? && Validated(s) == s
    requires NamesFree(docker, s.workerId, DesiredByName(r.cfg, s, r.host.imageId))
    ensures r.log == log + [Ledger.Receipt(s.workerId, s.capturedAt)]
  {
    hide StubsOf, Flawless, SettledFor, FrameOf, Written, Ledger.RecordedAfterGate, Earned, Validated, NamesFree;
    StubsUnhashed(r.cfg, s, r.store.workers[s.workerId].snapshot.hash, s.containers, r.host.imageId);
  }

  /** A record at least as new as the snapshot served. */
  ghost predicate AtLeast(held: Snapshot, a: Snapshot)
  {
    held.capturedAt >= a.capturedAt && (held.capturedAt == a.capturedAt ==> HoldsOf(held, a))
  }
}
