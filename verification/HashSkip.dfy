/** Leaving a container alone because its hash, image and state match is as good as recreating it. */
module HashSkip {
  import opened Model
  import opened Stubs
  import opened Desired
  import opened Hosts
  import opened Reconciler

  /** No collision among the preimages that have been hashed. */
  ghost predicate NoHashCollision(cfg: Config, known: set<Preimage>)
  {
    forall p, q :: p in known && q in known && cfg.specHash(p) == cfg.specHash(q) ==> p == q
  }

  /** What reconciling this snapshot hashes. */
  ghost function Hashed(cfg: Config, s: Snapshot, imageId: string): set<Preimage>
  {
    set c, n | c in s.containers && n in c.services :: StubPreimage(cfg, s, c, n, imageId)
  }

  ghost predicate MadeFromPreimage(cfg: Config, c: Container, p: Preimage)
  {
    MadeFor(cfg, c, FromPreimage(cfg, p, ""))
  }

  /** A managed container was created by a receiver with these settings, for one of the known preimages. */
  ghost predicate Genuine(cfg: Config, known: set<Preimage>, c: Container)
  {
    IsManaged(c) ==> exists p :: p in known && MadeFromPreimage(cfg, c, p)
  }

  ghost predicate AllGenuine(cfg: Config, known: set<Preimage>, d: Docker)
  {
    forall n :: n in d ==> Genuine(cfg, known, d[n])
  }

  /** A container without its id. */
  function Shape(c: Container): Container
  {
    c.(id := 0)
  }

  function Shapes(d: Docker): Docker
  {
    map n | n in d :: Shape(d[n])
  }

  function FreshShape(cfg: Config, spec: StubSpec, imageId: string): Container
  {
    Container(0, spec.labels, spec.env, spec.image, imageId, Nets(cfg), true)
  }

  /** What removing all containers of the worker and creating all desired stubs would leave. */
  function RecreateAll(cfg: Config, w: string, desired: map<string, StubSpec>, imageId: string, d: Docker): Docker
  {
    (map n | n in d && !Mine(d[n], w) :: Shape(d[n])) + (map n | n in desired :: FreshShape(cfg, desired[n], imageId))
  }

  lemma DesiredHasPreimage(cfg: Config, s: Snapshot, imageId: string, n: string) returns (p: Preimage, name: string)
    requires n in DesiredByName(cfg, s, imageId)
    ensures p in Hashed(cfg, s, imageId) && DesiredByName(cfg, s, imageId)[n] == FromPreimage(cfg, p, name)
  {
    hide StubsOf, StubPreimage, RoutersOf, FromPreimage;
    var spec := DesiredByName(cfg, s, imageId)[n];
    StubsAre(cfg, s, s.containers, imageId, spec);
    var c, service :| c in s.containers && IsStubOf(cfg, s, c, service, imageId, spec);
    p, name := StubPreimage(cfg, s, c, service, imageId), c.name;
  }

  /** A genuine container with the hash of a spec is what that spec would create. */
  lemma SameHashSameContainer(cfg: Config, known: set<Preimage>, c: Container, p: Preimage, name: string)
    requires NoHashCollision(cfg, known) && p in known && Genuine(cfg, known, c) && IsManaged(c)
    requires Matches(c, FromPreimage(cfg, p, name))
    ensures Shape(c) == FreshShape(cfg, FromPreimage(cfg, p, name), c.imageId)
  {
    hide StubName, StubEnv, MANAGED, WORKER_ID, IsManaged;
    var q :| q in known && MadeFromPreimage(cfg, c, q);
    assert Label(c, DESIRED_HASH) == cfg.specHash(q);
    assert q == p;
  }

  /** The hash skip refines recreating everything, up to container ids. */
  lemma SkipRefinesRecreate(cfg: Config, known: set<Preimage>, s: Snapshot, imageId: string, d: Docker, d': Docker)
    requires NoHashCollision(cfg, known + Hashed(cfg, s, imageId)) && AllGenuine(cfg, known, d) && s.workerId != ""
    requires Settles(cfg, s.workerId, DesiredByName(cfg, s, imageId), imageId, d, d')
    requires NamesFree(d, s.workerId, DesiredByName(cfg, s, imageId))
    ensures Shapes(d') == RecreateAll(cfg, s.workerId, DesiredByName(cfg, s, imageId), imageId, d)
  {
    var w, desired := s.workerId, DesiredByName(cfg, s, imageId);
    DesiredAreTagged(cfg, s, imageId);
    hide DesiredByName, FromPreimage, StubsOf, Tagged, Mine, Hashed, NoHashCollision;
    forall n | n in desired ensures Shape(d'[n]) == FreshShape(cfg, desired[n], imageId) {
      assert SettledAs(cfg, d, d'[n], desired[n], imageId);
      if n in d && Matches(d[n], desired[n]) {
        MineIsManaged(d[n], w);
        var p, name := DesiredHasPreimage(cfg, s, imageId, n);
        SameHashSameContainer(cfg, known + Hashed(cfg, s, imageId), d[n], p, name);
      }
    }
    ShapesOf(cfg, w, desired, imageId, d, d');
  }

  lemma ShapesOf(cfg: Config, w: string, desired: map<string, StubSpec>, imageId: string, d: Docker, d': Docker)
    requires FrameOf(w, d, d') && MineOf(d', w).Keys == desired.Keys
    requires forall n :: n in desired ==> n in d' && Shape(d'[n]) == FreshShape(cfg, desired[n], imageId)
    ensures Shapes(d') == RecreateAll(cfg, w, desired, imageId, d)
  {
    hide Mine, FreshShape;
    var got, want := Shapes(d'), RecreateAll(cfg, w, desired, imageId, d);
    forall n ensures n in got <==> n in want {
      if n in d' && n !in desired {
        assert n !in MineOf(d', w);
      }
    }
    forall n | n in got ensures got[n] == want[n] {
      if n !in desired {
        assert n !in MineOf(d', w);
      }
    }
  }

  lemma MineIsManaged(c: Container, w: string)
    requires Mine(c, w) && w != ""
    ensures IsManaged(c)
  {
  }

  /** Whatever calls fail, a reconcile run keeps all managed containers genuine. */
  lemma RunKeepsGenuine(cfg: Config, known: set<Preimage>, s: Snapshot, imageId: string, d: Docker, d': Docker)
    requires AllGenuine(cfg, known, d)
    requires FrameOf(s.workerId, d, d') && OldOrMade(cfg, s.workerId, DesiredByName(cfg, s, imageId), d, d')
    ensures AllGenuine(cfg, known + Hashed(cfg, s, imageId), d')
  {
    hide DesiredByName, FromPreimage, Mine, Hashed;
    var desired, more := DesiredByName(cfg, s, imageId), known + Hashed(cfg, s, imageId);
    forall n | n in d' ensures Genuine(cfg, more, d'[n]) {
      if n in desired && MadeFor(cfg, d'[n], desired[n]) {
        var p, name := DesiredHasPreimage(cfg, s, imageId, n);
        ContainerNameUnused(cfg, p, name);
        assert MadeFromPreimage(cfg, d'[n], p);
      } else {
        assert n in d && d'[n] == d[n];
      }
    }
  }

  lemma ContainerNameUnused(cfg: Config, p: Preimage, name: string)
    ensures FromPreimage(cfg, p, name) == FromPreimage(cfg, p, "").(containerName := name)
  {
  }

  /** The token is no part of the hash: after a change of token the test still matches, and the
      container left alone equals the one wanted exactly when the token did not change. */
  lemma TokenChangeGoesUnnoticed(cfg: Config, token: string, p: Preimage, name: string, c: Container)
    requires FreshFor(cfg, c, FromPreimage(cfg, p, name), p.imageId)
    ensures var now := cfg.(token := token);
            && Matches(c, FromPreimage(now, p, name))
            && (Shape(c) == FreshShape(now, FromPreimage(now, p, name), p.imageId) <==> token == cfg.token)
  {
    hide StubName;
    var now := cfg.(token := token);
    var a, b := "STUB_TOKEN=" + cfg.token, "STUB_TOKEN=" + token;
    assert a[11..] == cfg.token && b[11..] == token;
    assert FromPreimage(cfg, p, name).env[1] == a && FromPreimage(now, p, name).env[1] == b;
  }
}
