/** The agent and the receiver over a network that loses, delays, duplicates and reorders requests. */
module Network {
  import opened Strings
  import opened Model
  import opened Desired
  import opened Resolve
  import opened Handover
  import Ledger

  /** The receiver's ledger with the snapshots its records hold in memory and in files, and the snapshots
      behind its receipts; the snapshots one worker's agent ever sent, the attempt under way and the one
      it serves. */
  datatype Net = Net(
    ledger: Ledger.Ledger, memory: map<string, Snapshot>, files: map<string, Snapshot>, taken: seq<Snapshot>,
    sent: set<Snapshot>, attempt: Option<Snapshot>, adopted: Option<Snapshot>)

  /** Take: the receiver takes in a snapshot; `written` tells whether it got to the file. Acknowledged: the
      answer to the attempt under way arrives. */
  datatype Move =
    | Send(snapshot: Snapshot)
    | Take(snapshot: Snapshot, hash: string, checkedAt: int, ok: bool, written: bool)
    | Prune(at: int, gone: set<string>)
    | Restart(unread: set<string>)
    | Wait
    | Acknowledged
    | GiveUp

  /** What a record holds of a snapshot: its validated form, with the hash filled in. */
  ghost predicate HoldsOf(held: Snapshot, s: Snapshot)
  {
    held == Validated(s).(hash := held.hash)
  }

  function EventOf(m: Move): Ledger.Event
  {
    match m
    case Take(s, _, checkedAt, ok, _) => Ledger.Post(s.workerId, s.capturedAt, checkedAt, ok)
    case Prune(at, gone) => Ledger.Prune(at, gone)
    case Restart(unread) => Ledger.Restart(unread)
    case _ => Ledger.Wait
  }

  /** Requests of worker `w` come from its agent; those of others are not restricted. A snapshot is adopted
      only on the answer to its own request. */
  ghost predicate NetStep(p: Ledger.Policy, w: string, n: Net, n': Net, m: Move)
  {
    var before, after := n.ledger.books, n'.ledger.books;
    && (m.Send? || m.Acknowledged? || m.GiveUp? || LedgerStep(p, n, n', m))
    && match m
       case Send(s) =>
         s.workerId == w && n' == n.(attempt := Some(s), sent := n.sent + {s})
       case Take(s, hash, _, ok, written) =>
         var held := Validated(s).(hash := hash);
         && !Refused(s) && (s.workerId == w ==> s in n.sent) && (ok ==> written)
         && (if written then s.workerId in after.disk && after.disk[s.workerId].cap == s.capturedAt
              else after.disk == before.disk)
         && n' == n.(ledger := n'.ledger,
                     memory := n.memory[s.workerId := held],
                     files := if written then n.files[s.workerId := held] else n.files,
                     taken := if ok then n.taken + [s] else n.taken)
       case Prune(_, gone) =>
         n' == n.(ledger := n'.ledger, memory := n.memory - gone,
                     files := map v | v in n.files && v in after.disk :: n.files[v])
       case Restart(unread) =>
         n' == n.(ledger := n'.ledger, memory := n.files - unread)
       case Wait =>
         n' == n.(ledger := n'.ledger)
       case Acknowledged =>
         && n.attempt.Some? && n.attempt.value in n.taken
         && n' == n.(attempt := None, adopted := n.attempt)
       case GiveUp =>
         n' == n.(attempt := None)
  }

  ghost predicate LedgerStep(p: Ledger.Policy, n: Net, n': Net, m: Move)
  {
    && Ledger.Next(p, n.ledger, n'.ledger, EventOf(m))
    && Ledger.Punctual(p, n.ledger, EventOf(m))
    && Ledger.Careful(p, Ledger.StaleLost, n.ledger, n'.ledger, EventOf(m))
  }

  ghost predicate Initial(n: Net)
  {
    && Ledger.Start(n.ledger) && n.memory == map[] && n.files == map[] && n.taken == []
    && n.sent == {} && n.attempt == None && n.adopted == None
  }

  ghost predicate NetRun(p: Ledger.Policy, w: string, nets: seq<Net>, moves: seq<Move>)
  {
    && |nets| == |moves| + 1 && Initial(nets[0])
    && forall i :: 0 <= i < |moves| ==> NetStep(p, w, nets[i], nets[i + 1], moves[i])
  }

  /** The records are those of the ledger, and one with the captured_at of an accepted snapshot holds it. */
  ghost predicate Agrees(held: map<string, Snapshot>, book: map<string, Ledger.Entry>, taken: seq<Snapshot>)
  {
    && held.Keys == book.Keys
    && (forall v :: v in held ==> held[v].capturedAt == book[v].cap)
    && (forall t :: t in taken && t.workerId in held && held[t.workerId].capturedAt == t.capturedAt ==>
         HoldsOf(held[t.workerId], t))
  }

  /** What is held for `w` has the time of something its agent sent. */
  ghost predicate FromSent(w: string, held: map<string, Snapshot>, sent: set<Snapshot>)
  {
    w in held ==> exists s :: s in sent && s.capturedAt == held[w].capturedAt
  }

  ghost predicate NetInv(p: Ledger.Policy, w: string, n: Net)
  {
    && Ledger.Inv(p, n.ledger)
    && (forall t :: t in n.taken ==> Ledger.Receipt(t.workerId, t.capturedAt) in n.ledger.accepted)
    && Agrees(n.memory, n.ledger.books.mem, n.taken)
    && Agrees(n.files, n.ledger.books.disk, n.taken)
    && (forall t :: t in n.taken && t.workerId == w ==> t in n.sent)
    && (n.attempt.Some? ==> n.attempt.value.workerId == w)
    && (n.adopted.Some? ==> n.adopted.value.workerId == w && n.adopted.value in n.taken)
  }

  /** Taking in a snapshot puts it where older ones were. */
  lemma TakeAgrees(held: map<string, Snapshot>, book: map<string, Ledger.Entry>, book': map<string, Ledger.Entry>,
                   taken: seq<Snapshot>,
                   s: Snapshot, hash: string, ok: bool)
    requires Agrees(held, book, taken) && !Refused(s)
    requires s.workerId in book' && book'[s.workerId].cap == s.capturedAt
    requires book' == book[s.workerId := book'[s.workerId]]
    requires forall t :: t in taken && t.workerId == s.workerId ==> t.capturedAt < s.capturedAt
    ensures Agrees(held[s.workerId := Validated(s).(hash := hash)], book', if ok then taken + [s] else taken)
  {
    hide Clean;
  }

  /** Dropping records, or stamping them anew, changes nothing about those that stay. */
  lemma FewerAgree(held: map<string, Snapshot>, book: map<string, Ledger.Entry>, held': map<string, Snapshot>,
                   book': map<string, Ledger.Entry>, taken: seq<Snapshot>)
    requires Agrees(held, book, taken)
    requires held'.Keys == book'.Keys && book'.Keys <= book.Keys
    requires forall v :: v in held' ==> held'[v] == held[v] && book'[v].cap == book[v].cap
    ensures Agrees(held', book', taken)
  {
    hide HoldsOf;
  }

  lemma TakeKeepsInv(p: Ledger.Policy, w: string, n: Net, n': Net, m: Move)
    requires Ledger.Safe(p) && NetInv(p, w, n) && NetStep(p, w, n, n', m) && m.Take?
    ensures Agrees(n'.memory, n'.ledger.books.mem, n'.taken) && Agrees(n'.files, n'.ledger.books.disk, n'.taken)
    ensures n'.ledger.accepted
      == if m.ok then n.ledger.accepted + [Ledger.Receipt(m.snapshot.workerId, m.snapshot.capturedAt)]
                                  else n.ledger.accepted
  {
    hide Validated, Refused, Agrees, Ledger.Safe, Ledger.Covered;
    var s := m.snapshot;
    var b := n.ledger.books;
    forall t | t in n.taken && t.workerId == s.workerId ensures t.capturedAt < s.capturedAt {
      var r := Ledger.Receipt(t.workerId, t.capturedAt);
      assert r in n.ledger.accepted;
      Ledger.PassedIsNewer(p, b, s.workerId, s.capturedAt, m.checkedAt, r);
    }
    TakeAgrees(n.memory, b.mem, n'.ledger.books.mem, n.taken, s, m.hash, m.ok);
    if m.written {
      WrittenBook(b, n'.ledger.books, s, m.ok);
      TakeAgrees(n.files, b.disk, n'.ledger.books.disk, n.taken, s, m.hash, m.ok);
    }
  }

  lemma WrittenBook(b: Ledger.Books, b': Ledger.Books, s: Snapshot, ok: bool)
    requires Ledger.RecordedAfterGate(b, b', s.workerId, s.capturedAt, ok)
    requires s.workerId in b'.disk && b'.disk[s.workerId].cap == s.capturedAt
    ensures b'.disk == b.disk[s.workerId := b'.disk[s.workerId]]
  {
  }

  lemma DropKeepsInv(p: Ledger.Policy, w: string, n: Net, n': Net, m: Move)
    requires NetInv(p, w, n) && NetStep(p, w, n, n', m) && (m.Prune? || m.Restart? || m.Wait?)
    ensures Agrees(n'.memory, n'.ledger.books.mem, n'.taken) && Agrees(n'.files, n'.ledger.books.disk, n'.taken)
    ensures n'.ledger.accepted == n.ledger.accepted
  {
    hide Validated, Refused, Ledger.Inv, HoldsOf;
    if m.Prune? {
      FewerAgree(n.memory, n.ledger.books.mem, n'.memory, n'.ledger.books.mem, n.taken);
    } else if m.Restart? {
      FewerAgree(n.files, n.ledger.books.disk, n'.memory, n'.ledger.books.mem, n.taken);
    }
    if m.Prune? || m.Restart? {
      FewerAgree(n.files, n.ledger.books.disk, n'.files, n'.ledger.books.disk, n.taken);
    }
  }

  lemma NetStepKeepsInv(p: Ledger.Policy, w: string, n: Net, n': Net, m: Move)
    requires Ledger.Safe(p) && NetInv(p, w, n) && NetStep(p, w, n, n', m)
    ensures NetInv(p, w, n')
  {
    if m.Take? {
      TakeKeepsInv(p, w, n, n', m);
    } else if m.Prune? || m.Restart? || m.Wait? {
      DropKeepsInv(p, w, n, n', m);
    }
    if !m.Send? && !m.Acknowledged? && !m.GiveUp? {
      Ledger.NextKeepsInv(p, Ledger.StaleLost, n.ledger, n'.ledger, EventOf(m));
    }
    hide Validated, Refused, Ledger.Inv, Ledger.Next, Agrees, Ledger.Careful;
  }

  lemma StillFromSent(p: Ledger.Policy, w: string, n: Net, n': Net, m: Move)
    requires FromSent(w, n.memory, n.sent) && FromSent(w, n.files, n.sent) && NetStep(p, w, n, n', m)
    ensures FromSent(w, n'.memory, n'.sent) && FromSent(w, n'.files, n'.sent)
  {
    hide Ledger.Next, Ledger.Careful, Clean;
    if m.Send? && w in n.memory {
      var s :| s in n.sent && s.capturedAt == n.memory[w].capturedAt;
      assert s in n'.sent;
    }
    if m.Send? && w in n.files {
      var s :| s in n.sent && s.capturedAt == n.files[w].capturedAt;
      assert s in n'.sent;
    }
    if m.Take? && m.snapshot.workerId == w {
      assert m.snapshot in n'.sent;
    }
  }

  /** Whatever the configuration. */
  lemma {:induction false} HeldWasSent(p: Ledger.Policy, w: string, nets: seq<Net>, moves: seq<Move>, i: nat)
    requires NetRun(p, w, nets, moves) && i <= |moves|
    ensures FromSent(w, nets[i].memory, nets[i].sent) && FromSent(w, nets[i].files, nets[i].sent)
  {
    hide NetStep, FromSent;
    if i > 0 {
      HeldWasSent(p, w, nets, moves, i - 1);
      StillFromSent(p, w, nets[i - 1], nets[i], moves[i - 1]);
    } else {
      NothingHeld(w, nets[0]);
    }
  }

  lemma NothingHeld(w: string, n: Net)
    requires Initial(n)
    ensures FromSent(w, n.memory, n.sent) && FromSent(w, n.files, n.sent)
  {
  }

  lemma {:induction false} NetKeepsInv(p: Ledger.Policy, w: string, nets: seq<Net>, moves: seq<Move>, i: nat)
    requires Ledger.Safe(p) && NetRun(p, w, nets, moves) && i <= |moves|
    ensures NetInv(p, w, nets[i])
  {
    hide Validated, NetStep;
    if i > 0 {
      NetKeepsInv(p, w, nets, moves, i - 1);
      NetStepKeepsInv(p, w, nets[i - 1], nets[i], moves[i - 1]);
    }
  }

  /** The agent never runs ahead of the receiver: over every run on a lossy, reordering and duplicating
      network, with crashes and expiry, what the agent serves was sent and accepted, and whatever the
      receiver holds for the worker, in memory or on disk, is at least as new; if it is as old, it is the
      validated form of the same snapshot. Once the receiver holds nothing, no request can bring
      the adopted snapshot or an older one back. */
  lemma AgentNeverAhead(p: Ledger.Policy, w: string, nets: seq<Net>, moves: seq<Move>, i: nat)
    requires Ledger.Safe(p) && NetRun(p, w, nets, moves) && i <= |moves| && nets[i].adopted.Some?
    ensures var n := nets[i];
            var a := n.adopted.value;
            && a.workerId == w && a in n.sent && a in n.taken
            && (w in n.memory ==> n.memory[w].capturedAt >= a.capturedAt)
            && (w in n.files ==> n.files[w].capturedAt >= a.capturedAt)
            && (w in n.memory && n.memory[w].capturedAt == a.capturedAt ==> HoldsOf(n.memory[w], a))
            && (w in n.files && n.files[w].capturedAt == a.capturedAt ==> HoldsOf(n.files[w], a))
            && (w !in n.memory ==> Ledger.Outside(p, n.ledger.books.clock, a.capturedAt))
  {
    hide Validated;
    NetKeepsInv(p, w, nets, moves, i);
    var a := nets[i].adopted.value;
    assert Ledger.Receipt(a.workerId, a.capturedAt) in nets[i].ledger.accepted;
  }

  /** So, as long as the receiver's record is not newer than what the agent serves, every stub the receiver
      wants leads the agent to the very container and service it was built from. */
  lemma StubsMeetTheAgent(p: Ledger.Policy, w: string, nets: seq<Net>, moves: seq<Move>, i: nat, cfg: Config,
                          imageId: string, spec: StubSpec)
    returns (c: ContainerSpec)
    requires Ledger.Safe(p) && NetRun(p, w, nets, moves) && i <= |moves| && nets[i].adopted.Some?
    requires w in nets[i].memory && nets[i].memory[w].capturedAt <= nets[i].adopted.value.capturedAt
    requires spec in StubsOf(cfg, nets[i].memory[w], nets[i].memory[w].containers, imageId)
    ensures c in nets[i].memory[w].containers && spec.containerId == c.id && spec.serviceName in c.services
    ensures Lookup(nets[i].adopted.value, spec.containerId, spec.serviceName)
      == Found(c, c.services[spec.serviceName], true)
    ensures cfg.token != "" && Bare(cfg.token) && Bare(spec.containerId) && Bare(spec.serviceName) ==>
      && LoadStub(spec.env).Some?
      && ServesFrom(cfg.token, nets[i].adopted.value, LoadStub(spec.env).value, c, spec.serviceName)
  {
    hide NetStep, StubsOf, Clean, Lookup, StubFor, LoadStub, HandleTunnel, TunnelHeaders, IsStubOf, Targets, Received;
    AgentNeverAhead(p, w, nets, moves, i);
    var a, held := nets[i].adopted.value, nets[i].memory[w];
    StubsUnhashed(cfg, Validated(a), held.hash, held.containers, imageId);
    c := StubFindsItsService(cfg, a, imageId, spec, cfg.token);
    StubHasService(cfg, Validated(a), c, spec.serviceName, imageId, spec);
  }
}
