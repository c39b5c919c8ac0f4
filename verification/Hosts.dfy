/** The receiver's surroundings: the Docker daemon, the state directory and the clock. */
module Hosts {
  import opened Strings
  import opened Model
  import opened Stubs
  import opened Desired
  import opened Paths

  /** A worker record in memory and in its file. `managed` lists names of containers. */
  datatype Record = Record(snapshot: Snapshot, updatedAt: int, managed: set<string>)

  datatype Container = Container(
    id: nat, labels: Labels, env: seq<string>, image: string, imageId: string, networks: set<string>, running: bool)

  type Docker = map<string, Container>

  datatype Call =
    | InspectImage | ListContainers | InspectContainer | CreateContainer | ConnectNetwork | StartContainer
    | RemoveContainer | ListFiles | ReadFile | WriteFile | DeleteFile

  /** How a kind of call behaves: it works; it may fail without effect; it may also fail although it
      took effect (a lost reply); it always fails without effect; its reply is always lost. */
  datatype Trust = Sure | MayFail | MayTear | Broken | Tearing

  datatype Fate = Done | Failed | Torn

  function Label(c: Container, key: string): string
  {
    if key in c.labels then c.labels[key] else ""
  }

  /** The container carries the managed label and names `w` as its worker. */
  predicate Mine(c: Container, w: string)
  {
    Label(c, MANAGED) == "true" && Label(c, WORKER_ID) == w
  }

  predicate IsManaged(c: Container)
  {
    Label(c, MANAGED) == "true" && Label(c, WORKER_ID) != ""
  }

  /** A managed container of one of these workers. */
  predicate Owned(c: Container, ws: set<string>)
  {
    Label(c, MANAGED) == "true" && Label(c, WORKER_ID) in ws
  }

  ghost predicate Same(d: Docker, d': Docker, n: string)
  {
    (n in d <==> n in d') && (n in d ==> d[n] == d'[n])
  }

  predicate UniqueIds(d: Docker, nextId: nat)
  {
    && (forall n | n in d :: d[n].id < nextId)
    && (forall n, m | n in d && m in d && d[n].id == d[m].id :: n == m)
  }

  predicate SameManaged(d: Docker, d': Docker)
  {
    && (forall n | n in d :: IsManaged(d[n]) ==> n in d' && d'[n] == d[n])
    && (forall n | n in d' :: IsManaged(d'[n]) ==> n in d && d'[n] == d[n])
  }

  function Without(d: Docker, id: nat): Docker
  {
    map n | n in d && d[n].id != id :: d[n]
  }

  function Connected(d: Docker, id: nat, network: string): Docker
  {
    map n | n in d :: if d[n].id == id then d[n].(networks := d[n].networks + {network}) else d[n]
  }

  function Started(d: Docker, id: nat): Docker
  {
    map n | n in d :: if d[n].id == id then d[n].(running := true) else d[n]
  }

  /** Ids being unique, a call by id concerns one name. */
  lemma ById(d: Docker, nextId: nat, n: string, network: string)
    requires UniqueIds(d, nextId) && n in d
    ensures d[n].id in Ids(d)
    ensures Without(d, d[n].id) == d - {n}
    ensures Connected(d, d[n].id, network) == d[n := d[n].(networks := d[n].networks + {network})]
    ensures Started(d, d[n].id) == d[n := d[n].(running := true)]
  {
  }

  lemma OneName(d: Docker, nextId: nat, n: string)
    requires UniqueIds(d, nextId) && n in d
    ensures forall m :: m in d && d[m].id == d[n].id ==> m == n
  {
  }

  function Ids(d: Docker): set<nat>
  {
    set n | n in d :: d[n].id
  }

  function MineOf(d: Docker, w: string): Docker
  {
    map n | n in d && Mine(d[n], w) :: d[n]
  }

  /** The state files, each under the id of the worker whose record it holds. Writing the file of `w` puts
      an end to the record of whoever has the same file. */
  function Written(dir: Path, disk: map<string, Record>, w: string, r: Record): (m: map<string, Record>)
    ensures w in m && m[w] == r && m.Keys <= disk.Keys + {w}
  {
    Unlinked(dir, disk, w)[w := r]
  }

  function Unlinked(dir: Path, disk: map<string, Record>, w: string): map<string, Record>
  {
    map v | v in disk && FileOf(dir, v) != FileOf(dir, w) :: disk[v]
  }

  /** No other worker has a record in this worker's file. */
  ghost predicate Alone(dir: Path, disk: map<string, Record>, w: string)
  {
    forall v :: v in disk && FileOf(dir, v) == FileOf(dir, w) ==> v == w
  }

  lemma AloneWrites(dir: Path, disk: map<string, Record>, w: string, r: Record)
    requires Alone(dir, disk, w)
    ensures Written(dir, disk, w, r) == disk[w := r] && Unlinked(dir, disk, w) == disk - {w}
    ensures Alone(dir, disk[w := r], w)
  {
    hide FileOf;
  }

  lemma FewerApart(dir: Path, ids: set<string>, fewer: set<string>)
    requires Apart(dir, ids) && fewer <= ids
    ensures Apart(dir, fewer)
  {
    hide FileOf;
  }

  lemma WrittenTwice(dir: Path, disk: map<string, Record>, w: string, r: Record, r': Record)
    ensures Written(dir, Written(dir, disk, w, r), w, r') == Written(dir, disk, w, r')
  {
    hide FileOf;
  }

  lemma ApartIsAlone(dir: Path, disk: map<string, Record>, ids: set<string>)
    requires Apart(dir, ids) && disk.Keys <= ids
    ensures forall w :: w in ids ==> Alone(dir, disk, w)
    ensures Apart(dir, disk.Keys)
  {
    hide FileOf;
  }

  /** The host is shared by every incarnation of the receiver. Once the receiver has died (`alive` is
      false) no call has an effect any more, so the state after an interrupted operation is the
      state at the point of the crash. A crash can strike at any call. */
  class Host {
    const dir: Path
    var trust: Call -> Trust  // may change between operations
    var alive: bool
    var now: int
    var imageId: string
    var nextId: nat
    var docker: Docker
    var disk: map<string, Record>
    ghost var changes: nat  // mutating Docker calls so far

    ghost predicate Valid()
      reads this
    {
      UniqueIds(docker, nextId) && Apart(dir, disk.Keys)
    }

    constructor (trust: Call -> Trust, imageId: string, dir: Path)
      ensures Valid() && alive && docker == map[] && disk == map[]
      ensures this.trust == trust && this.imageId == imageId && this.dir == dir && now == 0 && changes == 0
    {
      this.trust, this.imageId, this.dir := trust, imageId, dir;
      alive, now, nextId, docker, disk, changes := true, 0, 0, map[], map[], 0;
    }

    predicate Sure(c: Call)
      reads this`trust
    {
      trust(c).Sure?
    }

    method Try(c: Call) returns (fate: Fate)
      modifies this`alive
      ensures alive ==> old(alive)
      ensures fate != Failed ==> old(alive) && !trust(c).Broken?
      ensures alive && trust(c).Sure? ==> fate == Done
      ensures alive && trust(c).Tearing? ==> fate == Torn
      ensures fate == Torn ==> trust(c).MayTear? || trust(c).Tearing?
    {
      var dies: bool := *;
      var guess: Fate := *;
      if !alive || dies {
        alive := false;
        return Failed;
      }
      fate := match trust(c)
        case Sure => Done
        case MayFail => (if guess == Torn then Failed else guess)
        case MayTear => guess
        case Broken => Failed
        case Tearing => Torn;
    }

    /** Time passes whenever somebody looks. */
    method Now() returns (t: int)
      modifies this`now
      ensures t == now && now >= old(now)
    {
      var later :| later >= now;
      now := later;
      t := now;
    }

    /** At most `most` passes. */
    method Wait(most: nat)
      modifies this`now
      ensures old(now) <= now <= old(now) + most
    {
      var step :| 0 <= step <= most;
      now := now + step;
    }

    method Sleep(span: nat)
      modifies this`now
      ensures now == old(now) + span
    {
      now := now + span;
    }

    /** The daemon or the file system gets better or worse. */
    method Turn(trust: Call -> Trust)
      modifies this`trust
      ensures this.trust == trust
    {
      this.trust := trust;
    }

    /** The process is gone. */
    method Kill()
      modifies this`alive
      ensures !alive
    {
      alive := false;
    }

    /** A new process is started. */
    method Revive()
      modifies this`alive
      ensures alive
    {
      alive := true;
    }

    /** Somebody else changes containers that are not managed, or pulls a new image. */
    method Outside(d: Docker, nextId: nat, imageId: string)
      requires Valid()
      modifies this`docker, this`nextId, this`imageId
      ensures Valid() && SameManaged(old(docker), docker)
    {
      if SameManaged(docker, d) && UniqueIds(d, nextId) {
        docker, this.nextId, this.imageId := d, nextId, imageId;
      }
    }

    method InspectImage() returns (id: Option<string>)
      modifies this`alive
      ensures alive ==> old(alive)
      ensures id.Some? ==> id.value == imageId
      ensures alive && Sure(Call.InspectImage) ==> id.Some?
      ensures trust(Call.InspectImage).Broken? ==> id.None?
    {
      var fate := Try(Call.InspectImage);
      id := if fate == Done then Some(imageId) else None;
    }

    method ListContainers() returns (ids: Option<set<nat>>)
      modifies this`alive
      ensures alive ==> old(alive)
      ensures ids.Some? ==> ids.value == Ids(docker)
      ensures alive && Sure(Call.ListContainers) ==> ids.Some?
      ensures trust(Call.ListContainers).Broken? ==> ids.None?
    {
      var fate := Try(Call.ListContainers);
      ids := if fate == Done then Some(Ids(docker)) else None;
    }

    method InspectContainer(id: nat) returns (name: Option<string>)
      requires Valid()
      modifies this`alive
      ensures alive ==> old(alive)
      ensures name.Some? ==> name.value in docker && docker[name.value].id == id
      ensures alive && Sure(Call.InspectContainer) && id in Ids(docker) ==> name.Some?
      ensures trust(Call.InspectContainer).Broken? ==> name.None?
    {
      var fate := Try(Call.InspectContainer);
      if fate == Done && id in Ids(docker) {
        var n :| n in docker && docker[n].id == id;
        return Some(n);
      }
      return None;
    }

    /** The daemon refuses a name that is taken. */
    method Create(spec: StubSpec) returns (id: Option<nat>)
      requires Valid()
      modifies this`alive, this`docker, this`nextId, this`changes
      ensures Valid()
      ensures alive ==> old(alive)
      ensures !old(alive) ==> docker == old(docker)
      ensures changes >= old(changes)
      ensures id.Some? ==> spec.name !in old(docker) && id.value == old(nextId)
                           && docker == old(docker)[spec.name := Container(id.value, spec.labels, spec.env,
                                                                           spec.image, imageId, {}, false)]
      ensures id.None? && !trust(CreateContainer).MayTear? && !trust(CreateContainer).Tearing? ==> docker == old(docker)
      ensures trust(CreateContainer).Tearing? && alive ==> id.None? && spec.name in docker
      ensures docker == old(docker) || (spec.name !in old(docker) && old(alive)
                           && docker == old(docker)[spec.name := Container(old(nextId), spec.labels, spec.env,
                                                                           spec.image, imageId, {}, false)])
      ensures alive && Sure(CreateContainer) && spec.name !in old(docker) ==> id.Some?
      ensures trust(CreateContainer).Broken? ==> id.None?
    {
      changes := changes + 1;
      var fate := Try(CreateContainer);
      id := None;
      if fate != Failed && spec.name !in docker {
        docker := docker[spec.name := Container(nextId, spec.labels, spec.env, spec.image, imageId, {}, false)];
        nextId := nextId + 1;
        if fate == Done {
          id := Some(nextId - 1);
        }
      }
    }

    method Connect(network: string, id: nat) returns (ok: bool)
      requires Valid()
      modifies this`alive, this`docker, this`changes
      ensures Valid()
      ensures alive ==> old(alive)
      ensures !old(alive) ==> docker == old(docker)
      ensures changes >= old(changes)
      ensures docker == old(docker) || docker == Connected(old(docker), id, network)
      ensures ok ==> docker == Connected(old(docker), id, network)
      ensures alive && Sure(ConnectNetwork) && id in Ids(old(docker)) ==> ok
    {
      changes := changes + 1;
      var fate := Try(ConnectNetwork);
      ok := fate == Done && id in Ids(docker);
      if fate != Failed {
        docker := Connected(docker, id, network);
      }
    }

    method Start(id: nat) returns (ok: bool)
      requires Valid()
      modifies this`alive, this`docker, this`changes
      ensures Valid()
      ensures alive ==> old(alive)
      ensures !old(alive) ==> docker == old(docker)
      ensures changes >= old(changes)
      ensures docker == old(docker) || docker == Started(old(docker), id)
      ensures ok ==> docker == Started(old(docker), id)
      ensures alive && Sure(StartContainer) && id in Ids(old(docker)) ==> ok
    {
      changes := changes + 1;
      var fate := Try(StartContainer);
      ok := fate == Done && id in Ids(docker);
      if fate != Failed {
        docker := Started(docker, id);
      }
    }

    /** Removing an absent container succeeds. */
    method Remove(id: nat) returns (ok: bool)
      requires Valid()
      modifies this`alive, this`docker, this`changes
      ensures Valid()
      ensures alive ==> old(alive)
      ensures !old(alive) ==> docker == old(docker)
      ensures changes >= old(changes)
      ensures docker == old(docker) || docker == Without(old(docker), id)
      ensures ok ==> docker == Without(old(docker), id)
      ensures alive && Sure(RemoveContainer) ==> ok
      ensures trust(RemoveContainer).Broken? ==> docker == old(docker)
    {
      changes := changes + 1;
      var fate := Try(RemoveContainer);
      ok := fate == Done;
      if fate != Failed {
        docker := Without(docker, id);
      }
    }

    /** os.ReadDir shows the files in the directory itself, not those below it. */
    method ListFiles() returns (names: Option<set<string>>)
      modifies this`alive
      ensures alive ==> old(alive)
      ensures names.Some? ==> names.value == set w | w in disk && TopLevel(dir, w)
      ensures alive && Sure(Call.ListFiles) ==> names.Some?
    {
      var fate := Try(Call.ListFiles);
      names := if fate == Done then Some(set w | w in disk && TopLevel(dir, w)) else None;
    }

    method ReadFile(w: string) returns (r: Option<Record>)
      modifies this`alive
      ensures alive ==> old(alive)
      ensures r.Some? ==> w in disk && r.value == disk[w]
      ensures alive && Sure(Call.ReadFile) && w in disk ==> r.Some?
      ensures trust(Call.ReadFile).Broken? ==> r.None?
    {
      var fate := Try(Call.ReadFile);
      r := if fate == Done && w in disk then Some(disk[w]) else None;
    }

    /** AtomicWriteFile: afterwards the file is the old one or the new one, never a mixture. */
    method WriteFile(w: string, r: Record) returns (ok: bool)
      modifies this`alive, this`disk
      ensures !old(alive) ==> disk == old(disk)
      ensures alive ==> old(alive)
      ensures disk == old(disk) || disk == Written(dir, old(disk), w, r)
      ensures ok ==> disk == Written(dir, old(disk), w, r)
      ensures Apart(dir, old(disk).Keys) ==> Apart(dir, disk.Keys)
      ensures alive && Sure(Call.WriteFile) ==> ok
      ensures trust(Call.WriteFile).Broken? ==> !ok && disk == old(disk)
    {
      hide FileOf;
      var fate := Try(Call.WriteFile);
      ok := fate == Done;
      if fate != Failed {
        disk := Written(dir, disk, w, r);
      }
    }

    method DeleteFile(w: string) returns (ok: bool)
      modifies this`alive, this`disk
      ensures !old(alive) ==> disk == old(disk)
      ensures alive ==> old(alive)
      ensures disk == old(disk) || disk == Unlinked(dir, old(disk), w)
      ensures ok ==> disk == Unlinked(dir, old(disk), w)
      ensures Apart(dir, old(disk).Keys) ==> Apart(dir, disk.Keys)
      ensures alive && Sure(Call.DeleteFile) ==> ok
    {
      hide FileOf;
      var fate := Try(Call.DeleteFile);
      ok := fate == Done;
      if fate != Failed {
        disk := Unlinked(dir, disk, w);
      }
    }

    /** listManagedContainers: list all, inspect each, keep those of the worker. A container that
        cannot be inspected is passed over. */
    method ListManaged(w: string) returns (found: Option<Docker>)
      requires Valid()
      modifies this`alive
      ensures alive ==> old(alive)
      ensures found.Some? ==> found.value.Keys <= MineOf(docker, w).Keys
      ensures found.Some? ==> forall n :: n in found.value ==> found.value[n] == docker[n]
      ensures alive && Sure(Call.ListContainers) ==> found.Some?
      ensures alive && Sure(Call.InspectContainer) && found.Some? ==> found.value == MineOf(docker, w)
      ensures trust(Call.ListContainers).Broken? ==> found.None?
      ensures trust(Call.InspectContainer).Broken? && found.Some? ==> found.value == map[]
    {
      hide Mine, UniqueIds;
      var ids := ListContainers();
      if ids.None? {
        return None;
      }
      var out: Docker, todo := map[], ids.value;
      while todo != {}
        invariant todo <= Ids(docker)
        invariant alive ==> old(alive)
        invariant out.Keys <= MineOf(docker, w).Keys
        invariant forall n :: n in out ==> out[n] == docker[n]
        invariant trust(Call.InspectContainer).Broken? ==> out == map[]
        invariant alive && Sure(Call.InspectContainer) ==>
          forall n :: n in docker && Mine(docker[n], w) && docker[n].id !in todo ==> n in out
        decreases todo
      {
        var id :| id in todo;
        todo := todo - {id};
        var name := InspectContainer(id);
        if name.Some? {
          var c := docker[name.value];
          OneName(docker, nextId, name.value);
          if Mine(c, w) {
            out := out[name.value := c];
          }
        }
      }
      return Some(out);
    }
  }
}
