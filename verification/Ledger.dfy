/** Replay protection of the receiver, reduced to the books it keeps per worker.

    An entry is the captured_at of the newest snapshot and the updated_at stamp. The
    books exist twice, in memory and on disk. A request passes a window check, waits, and then
    meets the staleness check; expiry forgets, and so does a restart that cannot read a file.
    All times are instants in nanoseconds. */
module Ledger {

  type Worker = string

  datatype Entry = Entry(cap: int, upd: int)

  /** window: RequestWindow, ttl: StateTTL; either is switched off by a value <= 0.
      delay is how long a request may take from the window check to the staleness check. */
  datatype Policy = Policy(window: int, ttl: int, delay: nat)

  datatype Books = Books(clock: int, mem: map<Worker, Entry>, disk: map<Worker, Entry>)

  datatype Receipt = Receipt(worker: Worker, cap: int)

  /** The books together with every receipt ever handed out. */
  datatype Ledger = Ledger(books: Books, accepted: seq<Receipt>)

  predicate InWindow(p: Policy, cap: int, checkedAt: int)
  {
    p.window > 0 ==> checkedAt - p.window <= cap <= checkedAt + p.window
  }

  predicate Fresh(b: Books, w: Worker, cap: int)
  {
    w in b.mem ==> cap > b.mem[w].cap
  }

  /** A snapshot of worker `w` got past both checks at time b.clock, the window check
      having happened at `checkedAt`. It is accepted (`ok`) only when it reached the disk. */
  ghost predicate Recorded(p: Policy, b: Books, b': Books, w: Worker, cap: int, checkedAt: int, ok: bool)
  {
    && checkedAt <= b.clock <= b'.clock
    && InWindow(p, cap, checkedAt)
    && RecordedAfterGate(b, b', w, cap, ok)
  }

  ghost predicate RecordedAfterGate(b: Books, b': Books, w: Worker, cap: int, ok: bool)
  {
    && b.clock <= b'.clock
    && Fresh(b, w, cap)
    && Booked(b, b'.clock, b'.mem, b.mem, w, cap)
    && (Booked(b, b'.clock, b'.disk, b.disk, w, cap) || (b'.disk == b.disk && !ok))
  }

  /** `after` is `before` with the entry of `w` replaced by one stamped during the step. */
  ghost predicate Booked(b: Books, now: int, after: map<Worker, Entry>, before: map<Worker, Entry>, w: Worker, cap: int)
  {
    && w in after
    && after[w].cap == cap
    && b.clock <= after[w].upd <= now
    && after == before[w := after[w]]
  }

  /** Expiry at a time `at` read no later than the step: every worker in `gone` is forgotten in
      memory, and on disk as far as deleting its file worked. */
  ghost predicate Expired(p: Policy, b: Books, b': Books, at: int, gone: set<Worker>)
  {
    && b.clock <= b'.clock
    && at <= b'.clock
    && p.ttl > 0
    && gone <= b.mem.Keys
    && (forall w :: w in gone ==> at - b.mem[w].upd > p.ttl)
    && b'.mem == b.mem - gone
    && b'.disk.Keys <= b.disk.Keys
    && (forall w :: w in b.disk && w !in gone ==> w in b'.disk)
    && (forall w :: w in b'.disk ==> b'.disk[w] == b.disk[w])
  }

  /** `after` has the entries of `before`, some with a later updated_at stamp. */
  ghost predicate Restamped(now: int, after: map<Worker, Entry>, before: map<Worker, Entry>)
  {
    && after.Keys == before.Keys
    && forall w :: w in before ==> after[w].cap == before[w].cap && before[w].upd <= after[w].upd <= now
  }

  /** A crash or stop followed by loading the books from disk. The files of `unread` are there, but
      cannot be read or decoded: they stay, and their workers are missing from memory. */
  ghost predicate Reloaded(b: Books, b': Books, unread: set<Worker>)
  {
    && b.clock <= b'.clock
    && Restamped(b'.clock, b'.mem, b.disk - unread)
    && Restamped(b'.clock, b'.disk, b.disk)
  }

  datatype Event =
    | Post(worker: Worker, cap: int, checkedAt: int, ok: bool)
    | Prune(at: int, gone: set<Worker>)
    | Restart(unread: set<Worker>)
    | Wait

  ghost predicate Next(p: Policy, l: Ledger, l': Ledger, e: Event)
  {
    match e
    case Post(w, cap, checkedAt, ok) =>
      && Recorded(p, l.books, l'.books, w, cap, checkedAt, ok)
      && l'.accepted == if ok then l.accepted + [Receipt(w, cap)] else l.accepted
    case Prune(at, gone) =>
      Expired(p, l.books, l'.books, at, gone) && l'.accepted == l.accepted
    case Restart(unread) =>
      Reloaded(l.books, l'.books, unread) && l'.accepted == l.accepted
    case Wait =>
      l'.books == l.books.(clock := l'.books.clock) && l.books.clock <= l'.books.clock && l'.accepted == l.accepted
  }

  ghost predicate Start(l: Ledger)
  {
    l.books.mem == map[] && l.books.disk == map[] && l.accepted == []
  }

  /** A whole run: states[i+1] follows from states[i] by events[i]. */
  ghost predicate Run(p: Policy, states: seq<Ledger>, events: seq<Event>)
  {
    && |states| == |events| + 1
    && Start(states[0])
    && forall i :: 0 <= i < |events| ==> Next(p, states[i], states[i + 1], events[i])
  }

  // ---------------------------------------------------------------- assumptions on runs

  /** Which files a restart may fail to read: none, those whose captured_at is out of the window for
      good, or any. */
  datatype Files = Readable | StaleLost | AnyLost

  /** The request did not wait longer than the policy allows for. */
  predicate Punctual(p: Policy, l: Ledger, e: Event)
  {
    e.Post? ==> l.books.clock - p.delay <= e.checkedAt
  }

  ghost predicate Careful(p: Policy, files: Files, l: Ledger, l': Ledger, e: Event)
  {
    e.Restart? ==>
      match files
      case Readable => e.unread == {}
      case StaleLost => forall w :: w in e.unread && w in l.books.disk ==>
        Outside(p, l'.books.clock, l.books.disk[w].cap)
      case AnyLost => true
  }

  ghost predicate Allowed(p: Policy, files: Files, states: seq<Ledger>, events: seq<Event>)
    requires |states| == |events| + 1
  {
    forall i :: 0 <= i < |events| ==>
      Punctual(p, states[i], events[i]) && Careful(p, files, states[i], states[i + 1], events[i])
  }

  /** The receipts of each worker carry strictly increasing captured_at times. */
  ghost predicate Increasing(log: seq<Receipt>)
  {
    forall i, j :: 0 <= i < j < |log| && log[i].worker == log[j].worker ==> log[i].cap < log[j].cap
  }

  ghost predicate NoReplay(log: seq<Receipt>)
  {
    forall i, j :: 0 <= i < j < |log| ==> log[i] != log[j]
  }

  /** The configuration under which expiry is safe. */
  predicate Safe(p: Policy)
  {
    p.ttl <= 0 || (p.window > 0 && p.ttl >= 2 * p.window + p.delay)
  }

  /** No later window check can let `cap` through. */
  ghost predicate Outside(p: Policy, clock: int, cap: int)
  {
    p.window > 0 && cap < clock - p.delay - p.window
  }

  /** `cap` is covered by an entry at least as new, or is outside the window for good. */
  ghost predicate Covered(p: Policy, clock: int, books: map<Worker, Entry>, w: Worker, cap: int)
  {
    if w in books then books[w].cap >= cap else Outside(p, clock, cap)
  }

  ghost predicate Bounded(p: Policy, clock: int, books: map<Worker, Entry>)
  {
    forall w :: w in books ==> books[w].upd <= clock && (p.window > 0 ==> books[w].cap <= books[w].upd + p.window)
  }

  ghost predicate Inv(p: Policy, l: Ledger)
  {
    && Bounded(p, l.books.clock, l.books.mem)
    && Bounded(p, l.books.clock, l.books.disk)
    && (forall r :: r in l.accepted ==> Covered(p, l.books.clock, l.books.mem, r.worker, r.cap))
    && (forall r :: r in l.accepted ==> Covered(p, l.books.clock, l.books.disk, r.worker, r.cap))
    && (forall r :: r in l.accepted ==> p.window > 0 ==> r.cap <= l.books.clock + p.window)
    && Increasing(l.accepted)
  }

  /** Expiry only forgets entries whose captured_at already left the window. */
  lemma ExpiryLeavesWindow(p: Policy, b: Books, b': Books, at: int, gone: set<Worker>, r: Receipt)
    requires Safe(p) && Expired(p, b, b', at, gone)
    requires Bounded(p, b.clock, b.mem) && r.worker in gone
    requires Covered(p, b.clock, b.mem, r.worker, r.cap)
    ensures Outside(p, b'.clock, r.cap)
  {
    var e := b.mem[r.worker];
    assert r.cap <= e.cap <= e.upd + p.window;
    assert at - e.upd > p.ttl >= 2 * p.window + p.delay;
  }

  /** Whatever passes both checks is newer than everything accepted so far. */
  lemma PassedIsNewer(p: Policy, b: Books, w: Worker, cap: int, checkedAt: int, r: Receipt)
    requires b.clock - p.delay <= checkedAt && InWindow(p, cap, checkedAt) && Fresh(b, w, cap)
    requires Covered(p, b.clock, b.mem, w, r.cap)
    ensures cap > r.cap
  {
  }

  lemma {:induction false} NextKeepsInv(p: Policy, files: Files, l: Ledger, l': Ledger, e: Event)
    requires Safe(p) && Inv(p, l) && Next(p, l, l', e)
    requires files != AnyLost && Punctual(p, l, e) && Careful(p, files, l, l', e)
    ensures Inv(p, l')
  {
    match e
    case Post(w, cap, checkedAt, ok) =>
      forall r | r in l.accepted && r.worker == w ensures cap > r.cap {
        PassedIsNewer(p, l.books, w, cap, checkedAt, r);
      }
    case Prune(at, gone) =>
      forall r | r in l.accepted && r.worker in gone ensures Outside(p, l'.books.clock, r.cap) {
        ExpiryLeavesWindow(p, l.books, l'.books, at, gone, r);
      }
    case Restart(unread) =>
    case Wait =>
  }

  lemma {:induction false} RunKeepsInv(p: Policy, files: Files, states: seq<Ledger>, events: seq<Event>, n: nat)
    requires Safe(p) && files != AnyLost
    requires Run(p, states, events) && Allowed(p, files, states, events) && n <= |events|
    ensures Inv(p, states[n])
  {
    if n > 0 {
      RunKeepsInv(p, files, states, events, n - 1);
      NextKeepsInv(p, files, states[n - 1], states[n], events[n - 1]);
    }
  }

  // ---------------------------------------------------------------- replays

  /** The very next event may accept this receipt. */
  ghost predicate Replayable(p: Policy, l: Ledger, r: Receipt)
  {
    exists l', e :: Next(p, l, l', e) && Punctual(p, l, e) && e.Post? && e.ok && Receipt(e.worker, e.cap) == r
  }

  /** A receipt can be accepted on the spot exactly if memory holds no record at least as new and the
      window is still open for it. */
  lemma ReplayableIff(p: Policy, l: Ledger, r: Receipt)
    requires p.window > 0 ==> r.cap <= l.books.clock + p.window
    ensures Replayable(p, l, r) <==> Fresh(l.books, r.worker, r.cap) && !Outside(p, l.books.clock, r.cap)
  {
    var b := l.books;
    if Fresh(b, r.worker, r.cap) && !Outside(p, b.clock, r.cap) {
      var checkedAt := if p.window > 0 && r.cap - p.window > b.clock - p.delay then r.cap - p.window
        else b.clock - p.delay;
      var entry := Entry(r.cap, b.clock);
      var b' := b.(mem := b.mem[r.worker := entry], disk := b.disk[r.worker := entry]);
      assert InWindow(p, r.cap, checkedAt);
      assert Next(p, l, Ledger(b', l.accepted + [r]), Post(r.worker, r.cap, checkedAt, true));
    }
  }

  /** After a restart in a safe configuration, what was accepted can be replayed exactly if it belongs to
      a worker whose file could not be read and its time is still inside the window. */
  lemma RestartReplaysIff(p: Policy, l: Ledger, l': Ledger, unread: set<Worker>, r: Receipt)
    requires Inv(p, l) && Next(p, l, l', Restart(unread)) && r in l.accepted
    ensures Replayable(p, l', r) <==> r.worker in unread && !Outside(p, l'.books.clock, r.cap)
  {
    ReplayableIff(p, l', r);
  }

  /** A run that replays, for a policy that is not safe: the first post claims the largest
      captured_at the window allows, the entry expires at once, and the second post claims
      the same time just before the window closes. */
  lemma ReplayWitness(p: Policy) returns (states: seq<Ledger>, events: seq<Event>)
    requires !Safe(p)
    ensures Run(p, states, events) && Allowed(p, Readable, states, events)
    ensures |states| == 4 && !NoReplay(states[3].accepted)
  {
    var cap := if p.window > 0 then p.window else 0;
    var e0 := Entry(cap, 0);
    var late := p.ttl + 1;
    var e1 := Entry(cap, late);
    var s0 := Ledger(Books(0, map[], map[]), []);
    var s1 := Ledger(Books(0, map["w" := e0], map["w" := e0]), [Receipt("w", cap)]);
    var s2 := Ledger(Books(late, map[], map[]), [Receipt("w", cap)]);
    var s3 := Ledger(Books(late, map["w" := e1], map["w" := e1]), [Receipt("w", cap), Receipt("w", cap)]);
    var seen := if late <= 2 * p.window then late
                else if late - p.delay > 2 * p.window then late - p.delay else 2 * p.window;
    var checkedAt := if p.window > 0 then seen else late;
    var post0, prune, post1 := Post("w", cap, 0, true), Prune(late, {"w"}), Post("w", cap, checkedAt, true);
    states, events := [s0, s1, s2, s3], [post0, prune, post1];
    assert s1.books.mem - {"w"} == map[];
    assert Next(p, s0, s1, post0);
    assert Next(p, s1, s2, prune);
    assert InWindow(p, cap, checkedAt);
    assert Next(p, s2, s3, post1);
    assert s3.accepted[0] == s3.accepted[1];
  }

  /** A run that replays under any policy, if any file may be unreadable: the process restarts without
      the record, and the same post comes again at once. */
  lemma UnreadWitness(p: Policy) returns (states: seq<Ledger>, events: seq<Event>)
    ensures Run(p, states, events) && Allowed(p, AnyLost, states, events)
    ensures |states| == 4 && !NoReplay(states[3].accepted)
  {
    var e := Entry(0, 0);
    var s0 := Ledger(Books(0, map[], map[]), []);
    var s1 := Ledger(Books(0, map["w" := e], map["w" := e]), [Receipt("w", 0)]);
    var s2 := Ledger(Books(0, map[], map["w" := e]), [Receipt("w", 0)]);
    var s3 := Ledger(Books(0, map["w" := e], map["w" := e]), [Receipt("w", 0), Receipt("w", 0)]);
    var post, restart := Post("w", 0, 0, true), Restart({"w"});
    states, events := [s0, s1, s2, s3], [post, restart, post];
    assert Next(p, s0, s1, post);
    assert s1.books.disk - {"w"} == map[];
    assert Next(p, s1, s2, restart);
    assert Next(p, s2, s3, post);
    assert s3.accepted[0] == s3.accepted[1];
  }

  ghost predicate NeverReplays(p: Policy, files: Files)
  {
    forall states: seq<Ledger>, events: seq<Event> ::
      Run(p, states, events) && Allowed(p, files, states, events) ==> NoReplay(states[|events|].accepted)
  }

  /** In a safe configuration, over every run of posts, expiries, restarts and waiting, the
      captured_at times accepted for a worker strictly increase, across forgetting too. */
  lemma AcceptedTimesIncrease(p: Policy, files: Files, states: seq<Ledger>, events: seq<Event>)
    requires Safe(p) && files != AnyLost && Run(p, states, events) && Allowed(p, files, states, events)
    ensures Increasing(states[|events|].accepted)
  {
    RunKeepsInv(p, files, states, events, |events|);
  }

  /** The receiver never accepts a (worker, captured_at) pair twice, over all runs, exactly when its
      configuration is safe and restarts fail to read no file but those whose time is out of the window. */
  lemma NeverReplaysIffSafe(p: Policy, files: Files)
    ensures NeverReplays(p, files) <==> Safe(p) && files != AnyLost
  {
    if Safe(p) && files != AnyLost {
      forall states: seq<Ledger>, events: seq<Event> | Run(p, states, events) && Allowed(p, files, states, events)
        ensures NoReplay(states[|events|].accepted)
      {
        AcceptedTimesIncrease(p, files, states, events);
      }
    } else if files == AnyLost {
      var states, events := UnreadWitness(p);
    } else {
      var states, events := ReplayWitness(p);
      assert Allowed(p, files, states, events);
    }
  }

  /** With the shipped defaults (a window of five minutes, a time to live of fifteen) the receiver
      tolerates exactly the delays up to five minutes. */
  lemma DefaultsTolerateFiveMinutes(delay: nat)
    ensures var minute := 60_000_000_000;
            NeverReplays(Policy(5 * minute, 15 * minute, delay), StaleLost) <==> delay <= 5 * minute
  {
    NeverReplaysIffSafe(Policy(5 * 60_000_000_000, 15 * 60_000_000_000, delay), StaleLost);
  }
}
