/** The Docker daemon as Veery sees it: a set of containers with never-reused ids
    and unique names, and calls that may be refused, lose their reply, or be cut
    short by the death of the calling process. */
module Docker {
  import opened Wrappers
  import opened Looks

  type Id = nat
  type ImageId = nat

  /** What the caller asked of a network, and what the daemon assigned at run time
      (addresses, gateways, endpoint ids). */
  datatype Endpoint = Endpoint(wanted: string, runtime: string)

  /** An image is asked for by tag or by its own id. */
  datatype Ref = Tag(name: string) | Digest(image: ImageId)

  /** Label keys; the ones Veery reads have names of their own. */
  datatype Label = VeeryRole | VeeryJob | ComposeProject | ComposeService | ComposeReplace | Other(key: string)

  /** What runs in a container. `process` is its entrypoint, environment, user and
      working directory. */
  datatype Config = Config(process: string, command: seq<string>, healthcheck: string, rest: string)

  /** How it is tied to the host. `access` is its mounts, groups and privileges. */
  datatype Host = Host(access: string, ports: string, restart: string, rest: string)

  /** Everything a container is created from. */
  datatype Spec = Spec(
    image: Ref,
    labels: map<Label, string>,
    config: Config,
    host: Host,
    networks: map<string, Endpoint>)

  /** Nothing but an image. */
  function Bare(image: Ref): Spec {
    Spec(image, map[], Config("", [], "", ""), Host("", "", "", ""), map[])
  }

  /** What a container was made from. */
  datatype Make = Make(image: ImageId, spec: Spec)

  /** `up` is what the daemon was last told (started or stopped); whether the
      process inside lives is only ever observed. */
  datatype Container = Container(id: Id, up: bool)

  /** Containers by name, the name each id goes by, what every container there ever
      was came from, the images at hand, and the one each tag names. `frozen` tags
      are those nobody moves while the world is looked at; there need not be any. */
  datatype World = World(
    containers: map<Name, Container>,
    names: map<Id, Name>,
    made: map<Id, Make>,
    images: set<ImageId>,
    tags: map<string, ImageId>,
    frozen: map<string, ImageId>,
    next: Id)

  /** A spec without what the daemon assigned at run time. */
  function Core(spec: Spec): Spec {
    spec.(networks := map n | n in spec.networks :: spec.networks[n].(runtime := ""))
  }

  datatype Inspection = Inspection(id: Id, name: Name, image: ImageId, spec: Spec, state: Option<RunState>)

  /** One line of a container listing. */
  datatype Summary = Summary(id: Id, labels: map<Label, string>, running: bool)

  // ---- Container names ----

  const OLD_SUFFIX := "__veery_old"

  /** A container name, kept as the number of times the parking suffix has been
      appended to a base that does not end in it. */
  datatype Name = Name(base: string, parkings: nat)

  function Parked(n: Name): Name {
    n.(parkings := n.parkings + 1)
  }

  function Render(n: Name): string
    decreases n.parkings
  {
    if n.parkings == 0 then n.base else Render(n.(parkings := n.parkings - 1)) + OLD_SUFFIX
  }

  predicate EndsParked(s: string) {
    |s| >= |OLD_SUFFIX| && s[|s| - |OLD_SUFFIX|..] == OLD_SUFFIX
  }

  /** Every string is the rendering of exactly one such name. */
  function NameOf(s: string): (n: Name)
    ensures Render(n) == s && !EndsParked(n.base)
  {
    if EndsParked(s) then
      var cut := s[..|s| - |OLD_SUFFIX|];
      assert s == cut + OLD_SUFFIX;
      assert Parked(NameOf(cut)).(parkings := Parked(NameOf(cut)).parkings - 1) == NameOf(cut);
      Parked(NameOf(cut))
    else Name(s, 0)
  }

  lemma {:induction false} RenderInjective(m: Name, n: Name)
    requires !EndsParked(m.base) && !EndsParked(n.base) && Render(m) == Render(n)
    ensures m == n
    decreases m.parkings
  {
    var s := Render(m);
    RenderEnds(m);
    RenderEnds(n);
    if m.parkings > 0 && n.parkings > 0 {
      var m', n' := m.(parkings := m.parkings - 1), n.(parkings := n.parkings - 1);
      assert Render(m') == s[..|s| - |OLD_SUFFIX|] == Render(n');
      RenderInjective(m', n');
    }
  }

  lemma RenderEnds(n: Name)
    ensures if n.parkings > 0 then EndsParked(Render(n)) else Render(n) == n.base
  {
  }

  // ---- States of the daemon ----

  ghost predicate WellFormed(w: World) {
    && (forall n :: n in w.containers ==> w.containers[n].id in w.names && w.names[w.containers[n].id] == n)
    && (forall id :: id in w.names ==> Holds(w, w.names[id], id) && id in w.made)
    && (forall id :: id in w.made ==> id < w.next)
    && (forall t :: t in w.frozen ==> t in w.tags && w.tags[t] == w.frozen[t])
  }

  predicate Taken(w: World, name: Name) {
    name in w.containers
  }

  predicate Holds(w: World, name: Name, id: Id) {
    name in w.containers && w.containers[name].id == id
  }

  predicate Exists(w: World, id: Id) {
    id in w.names
  }

  predicate IsUp(w: World, id: Id)
    requires WellFormed(w) && Exists(w, id)
  {
    w.containers[w.names[id]].up
  }

  /** The container of name `n`, if any, is the same in both. */
  ghost predicate SameAt(w: World, w': World, n: Name) {
    (n in w.containers <==> n in w'.containers) && (n in w.containers ==> w'.containers[n] == w.containers[n])
  }

  /** Ids are never reused, and what a container was made from never changes, here
      for the containers older than `born`. */
  ghost predicate Lineage(w: World, w': World, born: Id) {
    && w.next <= w'.next && w.frozen == w'.frozen
    && forall id :: id in w.made && id < born ==> id in w'.made && w'.made[id] == w.made[id]
  }

  /** The same, but for which containers there are under which names and whether they are up. */
  ghost predicate SameRest(w: World, w': World) {
    w' == w.(containers := w'.containers, names := w'.names)
  }

  /** The world with container `id` renamed, if that is possible. */
  function Reseated(w: World, id: Id, name: Name): (r: World)
    requires WellFormed(w)
    ensures WellFormed(r) && SameRest(w, r)
  {
    if !Exists(w, id) || Taken(w, name) then w
    else
      var was := w.names[id];
      w.(containers := (w.containers - {was})[name := w.containers[was]], names := w.names[id := name])
  }

  /** The world with container `id` removed, if it is there. */
  function Dropped(w: World, id: Id): (r: World)
    requires WellFormed(w)
    ensures WellFormed(r) && SameRest(w, r)
  {
    if !Exists(w, id) then w
    else w.(containers := w.containers - {w.names[id]}, names := w.names - {id})
  }

  /** The world with container `id` started or stopped, if it is there. */
  function Switch(w: World, id: Id, up: bool): (r: World)
    requires WellFormed(w)
    ensures WellFormed(r) && SameRest(w, r)
  {
    if !Exists(w, id) then w
    else w.(containers := w.containers[w.names[id] := Container(id, up)])
  }

  function Raised(w: World, id: Id): World
    requires WellFormed(w)
  {
    Switch(w, id, true)
  }

  function Renamed(w: World, id: Id, name: Name): (r: Result<World, ()>)
    requires WellFormed(w)
  {
    if !Exists(w, id) || Taken(w, name) then Failure(()) else Success(Reseated(w, id, name))
  }

  function Removed(w: World, id: Id): (r: Result<World, ()>)
    requires WellFormed(w)
  {
    if !Exists(w, id) then Failure(()) else Success(Dropped(w, id))
  }

  function SetUp(w: World, id: Id, up: bool): (r: Result<World, ()>)
    requires WellFormed(w)
  {
    if !Exists(w, id) then Failure(()) else Success(Switch(w, id, up))
  }

  function Resolve(w: World, ref: Ref): Option<ImageId> {
    match ref
    case Tag(name) => if name in w.tags then Some(w.tags[name]) else None
    case Digest(image) => if image in w.images then Some(image) else None
  }

  function Created(w: World, name: Name, spec: Spec): (r: Result<World, ()>)
    requires WellFormed(w)
    ensures r.Success? ==> WellFormed(r.value)
  {
    if Taken(w, name) || Resolve(w, spec.image).None? then Failure(())
    else Success(w.(
      containers := w.containers[name := Container(w.next, false)],
      names := w.names[w.next := name],
      made := w.made[w.next := Make(Resolve(w, spec.image).value, spec)],
      next := w.next + 1))
  }

  function On(m: Make, network: string, endpoint: Endpoint): Make {
    m.(spec := m.spec.(networks := m.spec.networks[network := endpoint]))
  }

  function Connected(w: World, id: Id, network: string, endpoint: Endpoint): (r: Result<World, ()>)
    requires WellFormed(w)
    ensures r.Success? ==> WellFormed(r.value)
  {
    if !Exists(w, id) then Failure(())
    else Success(w.(made := w.made[id := On(w.made[id], network, endpoint)]))
  }

  // ---- What a call may leave behind, on the names nobody else touches ----

  ghost predicate Guards(guarded: iset<Name>, name: Name) {
    name in guarded && Parked(name) in guarded
  }

  /** Guarded containers are as they were, but for those of `name` and its parked form. */
  ghost predicate Elsewhere(w: World, w': World, guarded: iset<Name>, name: Name) {
    forall n :: n in guarded && n != name && n != Parked(name) ==> SameAt(w, w', n)
  }

  ghost predicate Stays(w: World, w': World, guarded: iset<Name>) {
    forall n :: n in guarded ==> SameAt(w, w', n)
  }

  /** Container `id` has moved to the name `to`. */
  ghost predicate Moved(w: World, w': World, guarded: iset<Name>, id: Id, to: Name) {
    && (forall n :: n in guarded && n != to ==> if Holds(w, n, id) then !Taken(w', n) else SameAt(w, w', n))
    && (to in guarded ==> !Taken(w, to) && Holds(w', to, id))
    && (to in guarded ==> forall n :: n in guarded && Holds(w, n, id) ==> w'.containers[to] == w.containers[n])
  }

  /** Container `id` is gone. */
  ghost predicate Gone(w: World, w': World, guarded: iset<Name>, id: Id) {
    !Exists(w', id) && forall n :: n in guarded ==> if Holds(w, n, id) then !Taken(w', n) else SameAt(w, w', n)
  }

  /** Container `id` has been started or stopped. */
  ghost predicate Switched(w: World, w': World, guarded: iset<Name>, id: Id, up: bool) {
    forall n :: n in guarded ==>
      if Holds(w, n, id) then n in w'.containers && w'.containers[n] == Container(id, up) else SameAt(w, w', n)
  }

  /** An image is the one a reference names, as far as that is sure not to change. */
  predicate Names(w: World, ref: Ref, image: ImageId) {
    match ref
    case Tag(name) => name in w.frozen ==> image == w.frozen[name]
    case Digest(own) => image == own
  }

  /** A new container made from `spec`, not yet started, bears `name`. */
  ghost predicate Born(w: World, w': World, guarded: iset<Name>, id: Id, name: Name, spec: Spec) {
    && id >= w.next && id in w'.made && w'.made[id].spec == spec
    && Names(w, spec.image, w'.made[id].image)
    && (forall n :: n in guarded && n != name ==> SameAt(w, w', n))
    && (name in guarded ==> !Taken(w, name) && name in w'.containers && w'.containers[name] == Container(id, false))
  }

  /** What everybody other than the code under study may do between two of its
      calls: anything, except to containers that bear a guarded name. */
  ghost predicate Rely(w: World, w': World, guarded: iset<Name>) {
    WellFormed(w') && Lineage(w, w', w.next) && Stays(w, w', guarded)
  }

  /** What is gone does not come back. */
  ghost predicate NoneReturns(w: World, w': World) {
    forall id :: id in w'.names && id < w.next ==> id in w.names
  }

  lemma RelyTransitive(w: World, w': World, w'': World, guarded: iset<Name>)
    requires WellFormed(w) && Rely(w, w', guarded) && Rely(w', w'', guarded)
    ensures Rely(w, w'', guarded)
  {
  }

  lemma RenamedMoves(w: World, w': World, guarded: iset<Name>, id: Id, to: Name)
    requires WellFormed(w) && Rely(w, w', guarded) && Renamed(w', id, to).Success?
    ensures Moved(w, Renamed(w', id, to).value, guarded, id, to)
    ensures Lineage(w, Renamed(w', id, to).value, w.next)
  {
    var w'' := Renamed(w', id, to).value;
    forall n | n in guarded && n != to
      ensures if Holds(w, n, id) then !Taken(w'', n) else SameAt(w, w'', n)
    {
      assert SameAt(w, w', n);
    }
  }

  lemma DroppedGoes(w: World, w': World, guarded: iset<Name>, id: Id)
    requires WellFormed(w) && Rely(w, w', guarded)
    ensures Gone(w, Dropped(w', id), guarded, id) && Lineage(w, Dropped(w', id), w.next)
  {
    forall n | n in guarded ensures if Holds(w, n, id) then !Taken(Dropped(w', id), n) else SameAt(w, Dropped(w', id), n) {
      assert SameAt(w, w', n);
    }
  }

  lemma SwitchSwitches(w: World, w': World, guarded: iset<Name>, id: Id, up: bool)
    requires WellFormed(w) && Rely(w, w', guarded) && Exists(w', id)
    ensures Switched(w, Switch(w', id, up), guarded, id, up) && Lineage(w, Switch(w', id, up), w.next)
  {
    forall n | n in guarded
      ensures if Holds(w, n, id) then n in Switch(w', id, up).containers && Switch(w', id, up).containers[n] == Container(id, up) else SameAt(w, Switch(w', id, up), n)
    {
      assert SameAt(w, w', n);
    }
  }

  /** What a reliable daemon does: exactly what was asked, if it is possible at all. */
  ghost predicate Exact<T>(w: World, effect: Result<World, ()>, w': World, r: Call<Result<T, ()>>) {
    && r.Replied? && r.value.Success? == effect.Success?
    && w' == if effect.Success? then effect.value else w
  }

  datatype Fate = Works | Refused | ReplyLost | CrashBefore | CrashAfter

  /** The daemon and the process talking to it. A `reliable` daemon serves every
      possible call and nobody else acts on it; any other may do its worst. */
  class Daemon {
    var world: World
    var now: int
    const reliable: bool
    ghost const guarded: iset<Name>
    const sights: Id -> Sights         // what looks show of each container, if it is up
    ghost var verified: set<Id>        // containers that passed verification
    ghost var disturbed: set<Id>       // containers the code asked to stop, rename or remove
    ghost var unstarted: set<Id>       // containers whose return to their name ended without a confirmed start

    /** Nobody is called verified who did not pass verification. */
    ghost predicate Valid()
      reads this
    {
      WellFormed(world) && forall id :: id in verified ==> Verified(sights(id), now)
    }

    /** Outside activity: the contract stands for whatever others do. */
    method Interfere()
      requires Valid()
      modifies this`world
      ensures Rely(old(world), world, guarded) && NoneReturns(old(world), world)
      ensures reliable ==> world == old(world)
    {
    }

    method DrawFate() returns (f: Fate)
      ensures reliable ==> f == Works
    {
      f := *;
      if reliable {
        f := Works;
      }
    }

    /** Carries out a call: it has no effect or its whole effect, and a successful
        reply means the effect is there. */
    method Settle(effect: Result<World, ()>) returns (r: Call<Result<(), ()>>)
      modifies this`world
      ensures world == old(world) || (effect.Success? && world == effect.value)
      ensures Succeeded(r) ==> effect.Success? && world == effect.value
      ensures reliable ==> Exact(old(world), effect, world, r)
    {
      var fate := DrawFate();
      if effect.Success? && fate in {Works, ReplyLost, CrashAfter} {
        world := effect.value;
      }
      if fate in {CrashBefore, CrashAfter} {
        return Crashed;
      }
      r := Replied(if effect.Success? && fate == Works then Success(()) else Failure(()));
    }

    method Rename(id: Id, name: Name) returns (r: Call<Result<(), ()>>)
      requires Valid()
      modifies this`world, this`disturbed
      ensures Valid() && Lineage(old(world), world, old(world).next)
      ensures Stays(old(world), world, guarded) || Moved(old(world), world, guarded, id, name)
      ensures Succeeded(r) ==> Moved(old(world), world, guarded, id, name)
      ensures reliable ==> Exact(old(world), Renamed(old(world), id, name), world, r)
      ensures disturbed == old(disturbed) + {id}
    {
      Interfere();
      disturbed := disturbed + {id};
      if Renamed(world, id, name).Success? {
        RenamedMoves(old(world), world, guarded, id, name);
      }
      r := Settle(Renamed(world, id, name));
    }

    method Remove(id: Id) returns (r: Call<Result<(), ()>>)
      requires Valid()
      modifies this`world, this`disturbed
      ensures Valid() && Lineage(old(world), world, old(world).next)
      ensures Stays(old(world), world, guarded) || Gone(old(world), world, guarded, id)
      ensures Succeeded(r) ==> Gone(old(world), world, guarded, id)
      ensures reliable ==> Exact(old(world), Removed(old(world), id), world, r)
      ensures disturbed == old(disturbed) + {id}
    {
      Interfere();
      disturbed := disturbed + {id};
      DroppedGoes(old(world), world, guarded, id);
      r := Settle(Removed(world, id));
    }

    method Start(id: Id) returns (r: Call<Result<(), ()>>)
      requires Valid()
      modifies this`world
      ensures Valid() && Lineage(old(world), world, old(world).next)
      ensures Stays(old(world), world, guarded) || Switched(old(world), world, guarded, id, true)
      ensures Succeeded(r) ==> Switched(old(world), world, guarded, id, true)
      ensures reliable ==> Exact(old(world), SetUp(old(world), id, true), world, r)
    {
      Interfere();
      if Exists(world, id) {
        SwitchSwitches(old(world), world, guarded, id, true);
      }
      r := Settle(SetUp(world, id, true));
    }

    method Stop(id: Id) returns (r: Call<Result<(), ()>>)
      requires Valid()
      modifies this`world, this`disturbed
      ensures Valid() && Lineage(old(world), world, old(world).next)
      ensures Stays(old(world), world, guarded) || Switched(old(world), world, guarded, id, false)
      ensures Succeeded(r) ==> Switched(old(world), world, guarded, id, false)
      ensures reliable ==> Exact(old(world), SetUp(old(world), id, false), world, r)
      ensures disturbed == old(disturbed) + {id}
    {
      Interfere();
      disturbed := disturbed + {id};
      if Exists(world, id) {
        SwitchSwitches(old(world), world, guarded, id, false);
      }
      r := Settle(SetUp(world, id, false));
    }

    method Connect(id: Id, network: string, endpoint: Endpoint) returns (r: Call<Result<(), ()>>)
      requires Valid() && Exists(world, id) && world.names[id] in guarded
      modifies this`world
      ensures Valid() && Lineage(old(world), world, id) && Stays(old(world), world, guarded)
      ensures id in world.made && (world.made[id] == old(world).made[id] || world.made[id] == On(old(world).made[id], network, endpoint))
      ensures Succeeded(r) ==> world.made[id] == On(old(world).made[id], network, endpoint)
      ensures reliable ==> Succeeded(r)
    {
      Interfere();
      r := Settle(Connected(world, id, network, endpoint));
    }

    method Create(name: Name, spec: Spec) returns (r: Call<Result<Id, ()>>)
      requires Valid()
      modifies this`world
      ensures Valid() && Lineage(old(world), world, old(world).next)
      ensures Stays(old(world), world, guarded) ||
              exists id :: Born(old(world), world, guarded, id, name, spec)
      ensures Succeeded(r) ==> Born(old(world), world, guarded, r.value.value, name, spec)
      ensures reliable ==> Exact(old(world), Created(old(world), name, spec), world, r)
    {
      Interfere();
      var id := world.next;
      var settled := Settle(Created(world, name, spec));
      assert world.next > id ==> Born(old(world), world, guarded, id, name, spec);
      var done :- settled;
      r := Replied(if done.Success? then Success(id) else Failure(()));
    }

    /** Removal by name, as used to clear a leftover. */
    method RemoveNamed(name: Name) returns (r: Call<Result<(), ()>>)
      requires Valid() && name in guarded
      modifies this`world, this`disturbed
      ensures Valid() && Lineage(old(world), world, old(world).next)
      ensures forall n :: n in guarded && n != name ==> SameAt(old(world), world, n)
      ensures SameAt(old(world), world, name) || !Taken(world, name)
      ensures Succeeded(r) ==> !Taken(world, name)
      ensures reliable ==> r.Replied? && !Taken(world, name) && world.tags == old(world).tags && world.images == old(world).images
      ensures disturbed == old(disturbed) + if Taken(old(world), name) then {old(world).containers[name].id} else {}
    {
      Interfere();
      if Taken(world, name) {
        var id := world.containers[name].id;
        disturbed := disturbed + {id};
        r := Settle(Removed(world, id));
      } else {
        var fate := DrawFate();
        r := if fate in {CrashBefore, CrashAfter} then Crashed else Replied(Failure(()));
      }
    }

    /** Whether a read reaches the daemon and its answer the caller. */
    method Reach() returns (r: Call<bool>)
      requires Valid()
      modifies this`world
      ensures Valid() && Rely(old(world), world, guarded) && (reliable ==> world == old(world))
      ensures NoneReturns(old(world), world)
      ensures reliable ==> r == Replied(true)
    {
      Interfere();
      var fate := DrawFate();
      r := if fate in {CrashBefore, CrashAfter} then Crashed else Replied(fate == Works);
    }

    /** A container's run state is whatever it is, except that nothing runs in a
        container that has not been started. */
    method Describe(name: Name) returns (i: Inspection)
      requires Valid() && Taken(world, name)
      ensures i.name == name && Inspected(i, world)
      ensures SeemsAlive(i.state) ==> Shown(sights(i.id), Glance(now, i.state))
    {
      var c := world.containers[name];
      var m := world.made[c.id];
      var nth: nat := *;
      var s := sights(c.id)(now, nth);
      if s.Some? && !c.up {
        s := Some(s.value.(running := false, restarting := false));
      }
      OnShow(sights(c.id), now, nth);
      var addresses: map<string, string> := *;
      var networks := map n | n in m.spec.networks ::
        m.spec.networks[n].(runtime := if n in addresses then addresses[n] else "");
      i := Inspection(c.id, name, m.image, m.spec.(networks := networks), s);
      assert Core(i.spec).networks == Core(m.spec).networks;
    }

    method Inspect(id: Id) returns (r: Call<Result<Inspection, ()>>)
      requires Valid()
      modifies this`world
      ensures Valid() && Rely(old(world), world, guarded) && (reliable ==> world == old(world))
      ensures r.Replied? && r.value.Success? ==> Inspected(r.value.value, world) && r.value.value.id == id
      ensures NoneReturns(old(world), world)
      ensures r.Replied? && r.value.Success? && SeemsAlive(r.value.value.state) ==> Shown(sights(id), Glance(now, r.value.value.state))
      ensures reliable ==> r.Replied? && (r.value.Success? <==> Exists(world, id))
    {
      var reached :- Reach();
      if !reached || !Exists(world, id) {
        return Replied(Failure(()));
      }
      var i := Describe(world.names[id]);
      r := Replied(Success(i));
    }

    method InspectName(name: Name) returns (r: Call<Result<Inspection, ()>>)
      requires Valid()
      modifies this`world
      ensures Valid() && Rely(old(world), world, guarded) && (reliable ==> world == old(world))
      ensures r.Replied? && r.value.Success? ==> Inspected(r.value.value, world) && r.value.value.name == name
      ensures reliable ==> r.Replied? && (r.value.Success? <==> Taken(world, name))
    {
      var reached :- Reach();
      if !reached || !Taken(world, name) {
        return Replied(Failure(()));
      }
      var i := Describe(name);
      r := Replied(Success(i));
    }

    /** The listing of every container by name, stopped ones included. */
    method List() returns (r: Call<Result<map<Name, Summary>, ()>>)
      requires Valid()
      modifies this`world
      ensures Valid() && Rely(old(world), world, guarded) && (reliable ==> world == old(world))
      ensures r.Replied? && r.value.Success? ==> Listed(r.value.value, world)
      ensures reliable ==> r.Replied? && r.value.Success?
    {
      var reached :- Reach();
      if !reached {
        return Replied(Failure(()));
      }
      var alive: set<Name> := *;
      r := Replied(Success(map n | n in world.containers ::
        var c := world.containers[n];
        Summary(c.id, world.made[c.id].spec.labels, c.up && n in alive)));
    }

    /** Downloads `ref` and reports the image it now names. */
    method Pull(ref: Ref) returns (r: Call<Result<ImageId, ()>>)
      requires Valid()
      modifies this`world
      ensures Valid() && Rely(old(world), world, guarded)
      ensures Succeeded(r) ==> Resolve(world, ref) == Some(r.value.value)
      ensures reliable ==> r.Replied? && world == old(world).(images := world.images, tags := world.tags)
    {
      var reached :- Reach();
      var image: ImageId :| 0 <= image;
      if reached && ref.Tag? && ref.name !in world.frozen {
        world := world.(images := world.images + {image}, tags := world.tags[ref.name := image]);
      }
      var resolved := Resolve(world, ref);
      r := Replied(if reached && resolved.Some? then Success(resolved.value) else Failure(()));
    }

    /** The local image a reference names. */
    method InspectImage(ref: Ref) returns (r: Call<Result<ImageId, ()>>)
      requires Valid()
      modifies this`world
      ensures Valid() && Rely(old(world), world, guarded) && (reliable ==> world == old(world))
      ensures Succeeded(r) ==> Resolve(world, ref) == Some(r.value.value)
      ensures reliable ==> r.Replied? && (r.value.Success? <==> Resolve(world, ref).Some?)
    {
      var reached :- Reach();
      var resolved := Resolve(world, ref);
      r := Replied(if reached && resolved.Some? then Success(resolved.value) else Failure(()));
    }

    /** Time passes whenever the code is not looking. */
    method Elapse()
      requires Valid()
      modifies this`now
      ensures Valid() && now >= old(now)
    {
      var ms :| 0 <= ms;
      now := now + ms;
    }

    /** Sleeps for `ms`, unless the caller's context is cancelled first. */
    method Sleep(ms: nat) returns (cancelled: bool)
      requires Valid()
      modifies this`now
      ensures Valid() && now >= old(now) && (!cancelled ==> now >= old(now) + ms)
      ensures reliable ==> !cancelled
    {
      var fate := DrawFate();
      cancelled := fate != Works;
      if !cancelled {
        now := now + ms;
      }
    }
  }

  predicate SeemsAlive(state: Option<RunState>) {
    state.Some? && (state.value.running || state.value.restarting)
  }

  ghost predicate Inspected(i: Inspection, w: World) {
    && Holds(w, i.name, i.id) && i.id in w.made
    && i.image == w.made[i.id].image && Core(i.spec) == Core(w.made[i.id].spec)
    && (SeemsAlive(i.state) ==> w.containers[i.name].up)
  }

  ghost predicate Listed(listing: map<Name, Summary>, w: World) {
    && listing.Keys == w.containers.Keys
    && forall n :: n in listing ==>
         var c := w.containers[n];
         && listing[n].id == c.id && (listing[n].running ==> c.up)
         && c.id in w.made && listing[n].labels == w.made[c.id].spec.labels
  }
}
