/** The agent's sync loop: one trigger slot, retries, and adoption of acknowledged snapshots. */
module Agents {
  import opened Strings
  import opened Model
  import opened Backends
  import opened Export
  import opened Resolve
  import opened Desired

  // ---------------------------------------------------------------- the trigger slot as a step machine

  /** Where the Run goroutine is: waiting for the trigger; about to list containers; past the start of
      the listing, with the number of signals raised by then; backing off; or cancelled. */
  datatype Phase = Idle | Starting | Listed(since: nat) | BackingOff | Stopped

  /** slot: the buffered element of the trigger channel. signals counts the calls of signal() so far, and
      covered those raised before the listing of the last acknowledged snapshot began. */
  datatype Loop = Loop(slot: bool, phase: Phase, signals: nat, covered: nat)

  /** Signal: an event or a tick; it fills the slot, or is dropped because the slot is full. */
  datatype Act = Signal | Take | List | Fail | Retry | Succeed | Cancel

  /** Before Run signals for the first time. */
  const BORN := Loop(false, Idle, 0, 0)

  ghost predicate Step(l: Loop, l': Loop, a: Act)
  {
    match a
    case Signal => l' == l.(slot := true, signals := l.signals + 1)
    case Take => l.phase.Idle? && l.slot && l' == l.(slot := false, phase := Starting)
    case List => l.phase.Starting? && l' == l.(phase := Listed(l.signals))
    case Fail => (l.phase.Starting? || l.phase.Listed?) && l' == l.(phase := BackingOff)
    case Retry => l.phase.BackingOff? && l' == l.(phase := Starting)
    case Succeed => l.phase.Listed? && l' == l.(phase := Idle, covered := l.phase.since)
    case Cancel => l' == l.(phase := Stopped)
  }

  ghost predicate LoopRun(states: seq<Loop>, acts: seq<Act>)
  {
    && |states| == |acts| + 1
    && states[0] == BORN
    && forall i :: 0 <= i < |acts| ==> Step(states[i], states[i + 1], acts[i])
  }

  /** A signal that no acknowledged listing covers is held by the slot or by the listing under way. */
  ghost predicate LoopInv(l: Loop)
  {
    && l.covered <= l.signals
    && (l.phase.Listed? ==> l.covered <= l.phase.since <= l.signals)
    && (l.phase.Listed? && !l.slot ==> l.phase.since == l.signals)
    && (l.phase.Idle? && !l.slot ==> l.covered == l.signals)
  }

  lemma {:induction false} LoopKeepsInv(states: seq<Loop>, acts: seq<Act>, n: nat)
    requires LoopRun(states, acts) && n <= |acts|
    ensures LoopInv(states[n])
  {
    if n > 0 {
      LoopKeepsInv(states, acts, n - 1);
      assert Step(states[n - 1], states[n], acts[n - 1]);
    }
  }

  /** No lost wakeup: whenever the agent is idle with an empty slot, the last acknowledged snapshot was
      listed after the last signal, although signals are dropped while the slot is full. */
  lemma NoLostWakeup(states: seq<Loop>, acts: seq<Act>, n: nat)
    requires LoopRun(states, acts) && n <= |acts|
    requires states[n].phase.Idle? && !states[n].slot
    ensures states[n].covered == states[n].signals
  {
    LoopKeepsInv(states, acts, n);
  }

  // ---------------------------------------------------------------- the agent

  datatype Settings = Settings(workerId: string, advertiseAddr: string, proxyPort: int, urls: Urls)

  /** The inspection of one listed container. */
  datatype Inspection = Inspected(ins: Inspect) | Failed

  /** Unread: a success status whose body does not decode. */
  datatype Reply = Nothing | Rejected | Unread | Acknowledged

  /** What the world does during one attempt to sync: `early` signals come before its listing starts and
      `late` ones after that. */
  datatype Trip = Trip(early: nat, listing: Option<seq<Inspection>>, now: int, reply: Reply, late: nat)

  datatype Result = Synced | Failure | Panicked

  /** The specs of the containers that inspect and parse; None when parsing one of them panics. */
  function Collected(cfg: Settings, listing: seq<Inspection>): (r: Option<seq<ContainerSpec>>)
    decreases |listing|
  {
    if listing == [] then Some([])
    else CollectedWith(Collected(cfg, listing[..|listing| - 1]), Outcomes(cfg, listing[|listing| - 1]))
  }

  function Outcomes(cfg: Settings, i: Inspection): Outcome
  {
    if i.Failed? then Skipped else BuildContainer(i.ins, ResolverOf(cfg.urls, i.ins, cfg.advertiseAddr))
  }

  function CollectedWith(before: Option<seq<ContainerSpec>>, o: Outcome): Option<seq<ContainerSpec>>
  {
    if before.None? || o.Crash? then None
    else if o.Exported? then Some(before.value + [o.spec])
    else before
  }

  function Composed(cfg: Settings, hash: Snapshot -> string, now: int, containers: seq<ContainerSpec>): Snapshot
  {
    var s := Snapshot(cfg.workerId, cfg.advertiseAddr, cfg.proxyPort, now, "v1", "", containers);
    s.(hash := hash(s))
  }

  function Verdict(cfg: Settings, t: Trip): Result
  {
    if t.listing.None? then Failure
    else if Collected(cfg, t.listing.value).None? then Panicked
    else if t.reply.Acknowledged? then Synced
    else Failure
  }

  /** The attempt gets as far as sending a snapshot. */
  predicate Sends(cfg: Settings, t: Trip)
  {
    t.listing.Some? && Collected(cfg, t.listing.value).Some?
  }

  function Snap(cfg: Settings, hash: Snapshot -> string, t: Trip): Snapshot
    requires Sends(cfg, t)
  {
    Composed(cfg, hash, t.now, Collected(cfg, t.listing.value).value)
  }

  /** What is sent: the agent's address, the time of the trip, and the containers of its listing. */
  lemma SnapSays(cfg: Settings, hash: Snapshot -> string, t: Trip)
    requires Sends(cfg, t)
    ensures var s := Snap(cfg, hash, t);
            && s.workerId == cfg.workerId && s.advertiseAddr == cfg.advertiseAddr && s.proxyPort == cfg.proxyPort
            && s.capturedAt == t.now && s.version == "v1" && s.hash == hash(s.(hash := ""))
            && s.containers == Collected(cfg, t.listing.value).value
  {
    hide Collected;
  }

  /** Docker lists no two containers with one id, and none without. */
  ghost predicate ProperListing(listing: seq<Inspection>)
  {
    && (forall i :: 0 <= i < |listing| && listing[i].Inspected? ==> listing[i].ins.id != "")
    && (forall i, j :: 0 <= i < j < |listing| && listing[i].Inspected? && listing[j].Inspected? ==>
          listing[i].ins.id != listing[j].ins.id)
  }

  lemma {:induction false} CollectedAre(cfg: Settings, listing: seq<Inspection>)
    requires ProperListing(listing) && Collected(cfg, listing).Some?
    ensures var cs := Collected(cfg, listing).value;
            && DistinctIds(cs)
            && forall c :: c in cs ==>
                 && Usable(c)
                 && exists i :: 0 <= i < |listing| && listing[i].Inspected? && listing[i].ins.id == c.id
  {
    hide BuildContainer, WellFormed;
    if listing != [] {
      var n := |listing| - 1;
      var before := listing[..n];
      CollectedAre(cfg, before);
      var cs := Collected(cfg, before).value;
      forall c | c in cs ensures exists i :: 0 <= i < n && listing[i].Inspected? && listing[i].ins.id == c.id {
        var i :| 0 <= i < |before| && before[i].Inspected? && before[i].ins.id == c.id;
        assert listing[i] == before[i];
      }
      if listing[n].Inspected? && Outcomes(cfg, listing[n]).Exported? {
        ExportedIsClosed(listing[n].ins, ResolverOf(cfg.urls, listing[n].ins, cfg.advertiseAddr));
        assert listing[n].ins.id == Outcomes(cfg, listing[n]).spec.id;
      }
    }
  }

  /** The receiver's validation keeps every container of a snapshot the agent composes, and, when the
      agent's settings are sound, raises no issue that refuses it. */
  lemma ComposedIsValid(cfg: Settings, hash: Snapshot -> string, now: int, listing: seq<Inspection>)
    requires ProperListing(listing) && Collected(cfg, listing).Some?
    requires cfg.workerId != "" && cfg.advertiseAddr != "" && cfg.proxyPort > 0
    ensures var s := Composed(cfg, hash, now, Collected(cfg, listing).value);
            Validated(s) == s && !Refused(s)
  {
    hide Collected, Usable;
    var cs := Collected(cfg, listing).value;
    CollectedAre(cfg, listing);
    ExportedIsKept(cs, {});
  }

  class Agent {
    const cfg: Settings
    const hash: Snapshot -> string
    var trigger: bool
    var snapshot: Option<Snapshot>
    var lastSuccess: bool
    /** The run of the step machine so far. */
    ghost var states: seq<Loop>
    ghost var acts: seq<Act>

    constructor (cfg: Settings, hash: Snapshot -> string)
      ensures Valid() && Now() == BORN && snapshot == None && this.cfg == cfg && this.hash == hash && !lastSuccess
    {
      this.cfg, this.hash, trigger, snapshot, lastSuccess := cfg, hash, false, None, false;
      states, acts := [BORN], [];
    }

    ghost predicate Valid()
      reads this
    {
      LoopRun(states, acts) && trigger == states[|acts|].slot
    }

    ghost function Now(): Loop
      reads this
      requires Valid()
    {
      states[|acts|]
    }

    ghost predicate Extends(states': seq<Loop>, acts': seq<Act>)
      reads this
    {
      states' <= states && acts' <= acts
    }

    ghost method Did(a: Act, l: Loop)
      requires LoopRun(states, acts) && Step(states[|acts|], l, a) && trigger == l.slot
      modifies this`states, this`acts
      ensures Valid() && Now() == l && Extends(old(states), old(acts))
    {
      states, acts := states + [l], acts + [a];
    }

    /** signal(): a full slot swallows it. */
    method Signal()
      requires Valid()
      modifies this`trigger, this`states, this`acts
      ensures Valid() && Extends(old(states), old(acts))
      ensures Now() == old(Now()).(slot := true, signals := old(Now()).signals + 1)
    {
      ghost var l := Now();
      if !trigger {
        trigger := true;
      }
      Did(Act.Signal, l.(slot := true, signals := l.signals + 1));
    }

    method Signals(n: nat)
      requires Valid()
      modifies this`trigger, this`states, this`acts
      ensures Valid() && Extends(old(states), old(acts))
      ensures Now() == old(Now()).(slot := old(Now()).slot || n > 0, signals := old(Now()).signals + n)
    {
      for i := 0 to n
        invariant Valid() && Extends(old(states), old(acts))
        invariant Now() == old(Now()).(slot := old(Now()).slot || i > 0, signals := old(Now()).signals + i)
      {
        Signal();
      }
    }

    /** setError, as the attempt under way ends. */
    method SetError()
      requires Valid() && Now().phase.Listed?
      modifies this`lastSuccess, this`states, this`acts
      ensures Valid() && Extends(old(states), old(acts))
      ensures !lastSuccess && Now() == old(Now()).(phase := BackingOff)
    {
      lastSuccess := false;
      Did(Fail, Now().(phase := BackingOff));
    }

    /** One attempt: list, inspect, parse, send. The snapshot is adopted only on an acknowledgement. */
    method SyncOnce(t: Trip) returns (r: Result)
      requires Valid() && Now().phase.Starting?
      modifies this
      ensures Valid() && Extends(old(states), old(acts))
      ensures r == Verdict(cfg, t)
      ensures snapshot == if r == Synced then Some(Snap(cfg, hash, t)) else old(snapshot)
      ensures r == Synced ==>
        var s := snapshot.value;
        && s.workerId == cfg.workerId && s.advertiseAddr == cfg.advertiseAddr && s.proxyPort == cfg.proxyPort
        && s.capturedAt == t.now && s.version == "v1" && s.hash == hash(s.(hash := ""))
        && s.containers == Collected(cfg, t.listing.value).value
      ensures Now().slot == (old(Now()).slot || t.early + t.late > 0)
      ensures Now().signals == old(Now()).signals + t.early + t.late
      ensures match r
              case Synced => Now().phase == Idle && Now().covered == old(Now()).signals + t.early && lastSuccess
              case Failure => Now().phase == BackingOff && Now().covered == old(Now()).covered && !lastSuccess
              case Panicked => Now().phase == Stopped
    {
      if Sends(cfg, t) {
        SnapSays(cfg, hash, t);
      }
      hide Collected, Composed, LoopRun;
      Signals(t.early);
      Did(Act.List, Now().(phase := Listed(Now().signals)));
      Signals(t.late);
      ghost var l := Now();
      if t.listing.None? {
        SetError();
        return Failure;
      }
      var containers := Collect(cfg, t.listing.value);
      if containers.None? {
        Did(Cancel, l.(phase := Stopped));
        return Panicked;
      }
      if !t.reply.Acknowledged? {
        SetError();
        return Failure;
      }
      snapshot, lastSuccess := Some(Composed(cfg, hash, t.now, containers.value)), true;
      Did(Succeed, l.(phase := Idle, covered := l.phase.since));
      return Synced;
    }

    /** syncWithRetry, which is cancelled while backing off if it runs out of trips: the first attempt
        that does not fail ends it, and that is the one whose snapshot is served from then on. */
    method SyncWithRetry(trips: seq<Trip>) returns (r: Result, used: nat)
      requires Valid() && Now().phase.Starting?
      modifies this
      ensures Valid() && Extends(old(states), old(acts))
      ensures used <= |trips| && forall i :: 0 <= i < used ==> Verdict(cfg, trips[i]) == Failure
      ensures r == if used < |trips| then Verdict(cfg, trips[used]) else Failure
      ensures r == Failure <==> used == |trips|
      ensures r == Synced ==> snapshot == Some(Snap(cfg, hash, trips[used]))
      ensures r == Synced ==> Now().phase == Idle && Now().covered == Now().signals - trips[used].late
      ensures r == Synced && !trigger ==> trips[used].late == 0
      ensures r != Synced ==> snapshot == old(snapshot) && Now().phase == Stopped
      ensures Now().signals >= old(Now()).signals
    {
      used := 0;
      while used < |trips|
        invariant used <= |trips| && Valid() && Extends(old(states), old(acts)) && Now().phase.Starting?
        invariant Now().signals >= old(Now()).signals
        invariant snapshot == old(snapshot) && forall i :: 0 <= i < used ==> Verdict(cfg, trips[i]) == Failure
      {
        r := SyncOnce(trips[used]);
        if r != Failure {
          return;
        }
        Did(Retry, Now().(phase := Starting));
        used := used + 1;
      }
      r := Failure;
      Did(Cancel, Now().(phase := Stopped));
    }

    /** Run, over the ticks and events that come while it waits and the trips of each sync. However many
        signals the slot swallowed, an agent that waits with an empty slot serves the snapshot of a trip
        after whose listing began no signal came, neither during that trip nor in any later round. */
    method Run(rounds: seq<(nat, seq<Trip>)>)
      requires Valid() && Now() == BORN && snapshot == None
      modifies this
      ensures Valid() && Now().signals > 0
      ensures Now().phase in {Idle, Stopped}
      ensures Now().phase.Idle? && !trigger ==> Now().covered == Now().signals
      ensures Now().phase.Idle? && !trigger ==> UpToDate(cfg, hash, snapshot, rounds)
      ensures snapshot.Some? ==> exists i, t :: Serves(cfg, hash, snapshot, rounds, i, t)
    {
      hide Verdict, Snap, Serves, UpToDate, LoopRun;
      Signal();
      for i := 0 to |rounds|
        invariant Valid() && Now().signals > 0 && Now().phase.Idle?
        invariant !trigger ==> UpToDate(cfg, hash, snapshot, rounds[..i])
        invariant snapshot.Some? ==> exists j, t :: Serves(cfg, hash, snapshot, rounds, j, t)
      {
        Signals(rounds[i].0);
        if !trigger {
          StillUpToDate(cfg, hash, snapshot, rounds, i);
          continue;
        }
        ghost var l := Now();
        trigger := false;
        Did(Take, l.(slot := false, phase := Starting));
        var r, used := SyncWithRetry(rounds[i].1);
        if r != Synced {
          return;
        }
        ServesNow(cfg, hash, rounds, i, used);
        assert Serves(cfg, hash, snapshot, rounds, i, rounds[i].1[used]);
      }
      if !trigger {
        NoLostWakeup(states, acts, |acts|);
        assert rounds[..|rounds|] == rounds;
      }
    }
  }

  /** The snapshot served is that of a successful trip of round `i`. */
  ghost predicate Serves(cfg: Settings, hash: Snapshot -> string, snapshot: Option<Snapshot>,
                         rounds: seq<(nat, seq<Trip>)>, i: int, t: Trip)
  {
    0 <= i < |rounds| && t in rounds[i].1 && Verdict(cfg, t) == Synced && snapshot == Some(Snap(cfg, hash, t))
  }

  /** The snapshot served is that of a trip after whose listing began no signal came. */
  ghost predicate UpToDate(cfg: Settings, hash: Snapshot -> string, snapshot: Option<Snapshot>,
                           rounds: seq<(nat, seq<Trip>)>)
  {
    exists i, t :: Serves(cfg, hash, snapshot, rounds, i, t) && t.late == 0 && Quiet(rounds, i)
  }

  lemma ServesNow(cfg: Settings, hash: Snapshot -> string, rounds: seq<(nat, seq<Trip>)>, i: nat, used: nat)
    requires i < |rounds| && used < |rounds[i].1| && Verdict(cfg, rounds[i].1[used]) == Synced
    ensures var snapshot, t := Some(Snap(cfg, hash, rounds[i].1[used])), rounds[i].1[used];
            && Serves(cfg, hash, snapshot, rounds, i, t)
            && (t.late == 0 ==> UpToDate(cfg, hash, snapshot, rounds[..i + 1]))
  {
    var t := rounds[i].1[used];
    assert Sends(cfg, t);
    hide Verdict, Snap;
    assert Serves(cfg, hash, Some(Snap(cfg, hash, t)), rounds[..i + 1], i, t);
  }

  lemma StillUpToDate(cfg: Settings, hash: Snapshot -> string, snapshot: Option<Snapshot>,
                      rounds: seq<(nat, seq<Trip>)>, i: nat)
    requires i < |rounds| && UpToDate(cfg, hash, snapshot, rounds[..i]) && rounds[i].0 == 0
    ensures UpToDate(cfg, hash, snapshot, rounds[..i + 1])
  {
    hide Verdict, Snap;
    var j, t :| Serves(cfg, hash, snapshot, rounds[..i], j, t) && t.late == 0 && Quiet(rounds[..i], j);
    assert Serves(cfg, hash, snapshot, rounds[..i + 1], j, t);
  }

  /** No signal came between the trips of round `i` and the end of these rounds. */
  ghost predicate Quiet(rounds: seq<(nat, seq<Trip>)>, i: int)
  {
    forall k :: 0 <= k < |rounds| && i < k ==> rounds[k].0 == 0
  }
  /** The loop over the listed containers. */
  method Collect(cfg: Settings, listing: seq<Inspection>) returns (out: Option<seq<ContainerSpec>>)
    ensures out == Collected(cfg, listing)
  {
    hide BuildContainer;
    var specs := [];
    for i := 0 to |listing|
      invariant Collected(cfg, listing[..i]) == Some(specs)
    {
      assert listing[..i + 1][..i] == listing[..i];
      assert Collected(cfg, listing[..i + 1]) == CollectedWith(Some(specs), Outcomes(cfg, listing[i]));
      if listing[i].Failed? {
        continue;
      }
      var built := Build(listing[i].ins, cfg.urls, cfg.advertiseAddr);
      if built.Crash? {
        CrashStays(cfg, listing, i + 1);
        return None;
      }
      if built.Exported? {
        specs := specs + [built.spec];
      }
    }
    assert listing[..|listing|] == listing;
    return Some(specs);
  }

  lemma {:induction false} CrashStays(cfg: Settings, listing: seq<Inspection>, i: nat)
    requires i <= |listing| && Collected(cfg, listing[..i]).None?
    ensures Collected(cfg, listing).None?
    decreases |listing|
  {
    hide Outcomes;
    if i < |listing| {
      var n := |listing| - 1;
      assert listing[..n][..i] == listing[..i];
      CrashStays(cfg, listing[..n], i);
    } else {
      assert listing[..i] == listing;
    }
  }
}
