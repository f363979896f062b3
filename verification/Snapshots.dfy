/** internal/docker/snapshot.go: capturing a container's create-spec and building
    a container from one. */
module Snapshots {
  import opened Wrappers
  import opened Docker

  const DEFAULT_SUFFIX := "_default"

  datatype Snapshot = Snapshot(name: Name, project: string, service: string, spec: Spec)

  function LabelOf(labels: map<Label, string>, key: Label): string {
    if key in labels then labels[key] else ""
  }

  function SnapshotOf(i: Inspection): Snapshot {
    Snapshot(i.name, LabelOf(i.spec.labels, ComposeProject), LabelOf(i.spec.labels, ComposeService), i.spec)
  }

  /** The spec asked for when recreating: the snapshot's, on another image if one is given. */
  function Wanted(snap: Snapshot, newImage: Option<Ref>): Spec {
    Core(snap.spec).(image := if newImage.Some? then newImage.value else snap.spec.image)
  }

  // ---- Choosing the primary network ----

  predicate Before(a: string, b: string) {
    b != [] && (a == [] || a[0] < b[0] || (a[0] == b[0] && Before(a[1..], b[1..])))
  }

  lemma {:induction false} BeforeTotal(a: string, b: string)
    ensures Before(a, b) || a == b || Before(b, a)
  {
    if a != [] && b != [] && a[0] == b[0] {
      BeforeTotal(a[1..], b[1..]);
      assert a == [a[0]] + a[1..] && b == [b[0]] + b[1..];
    }
  }

  lemma {:induction false} BeforeTransitive(a: string, b: string, c: string)
    requires Before(a, b) && Before(b, c)
    ensures Before(a, c)
  {
    if a != [] && a[0] == b[0] == c[0] {
      BeforeTransitive(a[1..], b[1..], c[1..]);
    }
  }

  ghost predicate Sorted(names: seq<string>) {
    forall i, j :: 0 <= i < j < |names| ==> Before(names[i], names[j])
  }

  /** Puts a new name in its place. */
  function Insert(name: string, names: seq<string>): (r: seq<string>)
    requires Sorted(names) && name !in names
    ensures Sorted(r) && (forall n :: n in r <==> n == name || n in names)
  {
    if names == [] then [name]
    else
      BeforeTotal(name, names[0]);
      if Before(name, names[0]) then
        assert forall j :: 0 <= j < |names| ==> Before(name, names[j]) by {
          forall j | 0 < j < |names| ensures Before(name, names[j]) { BeforeTransitive(name, names[0], names[j]); }
        }
        [name] + names
      else
        var rest := Insert(name, names[1..]);
        assert forall n :: n in names <==> n == names[0] || n in names[1..];
        assert forall n :: n in rest ==> Before(names[0], n);
        [names[0]] + rest
  }

  predicate LooksDefault(name: string) {
    name == "default" || (|name| >= |DEFAULT_SUFFIX| && name[|name| - |DEFAULT_SUFFIX|..] == DEFAULT_SUFFIX)
  }

  function FirstDefault(names: seq<string>): Option<string> {
    if names == [] then None
    else if LooksDefault(names[0]) then Some(names[0])
    else FirstDefault(names[1..])
  }

  function PrimaryNetwork(snap: Snapshot, names: seq<string>): string {
    if names == [] then ""
    else if snap.project != "" && snap.project + DEFAULT_SUFFIX in snap.spec.networks then snap.project + DEFAULT_SUFFIX
    else match FirstDefault(names)
      case Some(name) => name
      case None => names[0]
  }

  lemma {:induction false} FirstDefaultIsLeast(names: seq<string>)
    requires Sorted(names)
    ensures FirstDefault(names).None? <==> forall n :: n in names ==> !LooksDefault(n)
    ensures FirstDefault(names).Some? ==>
      var p := FirstDefault(names).value;
      p in names && LooksDefault(p) && forall n :: n in names && LooksDefault(n) && n != p ==> Before(p, n)
  {
    if names != [] {
      FirstDefaultIsLeast(names[1..]);
      assert forall n :: n in names <==> n == names[0] || n in names[1..];
    }
  }

  /** The network a container gets its default route from depends on which networks
      it is on, never on the order they were listed in. */
  lemma PrimaryIsDeterministic(snap: Snapshot, names: seq<string>)
    requires Sorted(names) && names != [] && (forall n :: n in names <==> n in snap.spec.networks)
    ensures
      var p := PrimaryNetwork(snap, names);
      var own := snap.project + DEFAULT_SUFFIX;
      && p in snap.spec.networks
      && (snap.project != "" && own in snap.spec.networks ==> p == own)
      && (!(snap.project != "" && own in snap.spec.networks) ==>
            && ((exists n :: n in snap.spec.networks && LooksDefault(n)) ==> LooksDefault(p))
            && forall n :: n in snap.spec.networks && n != p && LooksDefault(n) == LooksDefault(p) ==> Before(p, n))
  {
    FirstDefaultIsLeast(names);
    var own := snap.project + DEFAULT_SUFFIX;
    if !(snap.project != "" && own in snap.spec.networks) && FirstDefault(names).None? {
      assert names[0] in names;
    }
  }

  // ---- Recreating ----

  /** Guarded containers under names other than `name` are as they were, and so is
      whatever is left of the containers older than `born`. */
  ghost predicate Bystanders(w: World, w': World, guarded: iset<Name>, name: Name, born: Id) {
    Lineage(w, w', born) && forall n :: n in guarded && n != name ==> SameAt(w, w', n)
  }

  lemma BystandersTransitive(w: World, w': World, w'': World, guarded: iset<Name>, name: Name, born: Id)
    requires Bystanders(w, w', guarded, name, born) && Bystanders(w', w'', guarded, name, born)
    ensures Bystanders(w, w'', guarded, name, born)
  {
  }

  /** `id` is None when no container is known to have been created. */
  datatype Rebuilt = Rebuilt(id: Option<Id>, ok: bool)

  /** `spec` is `wanted` short of some of its networks. */
  ghost predicate PartOf(spec: Spec, wanted: Spec) {
    && spec == wanted.(networks := spec.networks)
    && spec.networks.Keys <= wanted.networks.Keys
    && forall n :: n in spec.networks ==> spec.networks[n] == wanted.networks[n]
  }

  /** Container `id` was made from `wanted`, short of some of its networks. */
  ghost predicate MadeFrom(w: World, id: Id, wanted: Spec) {
    id in w.made && PartOf(w.made[id].spec, wanted) && Names(w, wanted.image, w.made[id].image)
  }

  /** The networks in name order, and those to be joined only after creation. */
  method ArrangeNetworks(snap: Snapshot) returns (names: seq<string>, extra: seq<string>)
    ensures Sorted(names) && forall n :: n in names <==> n in snap.spec.networks
    ensures forall n :: n in extra <==> n in names && n != PrimaryNetwork(snap, names)
  {
    names := [];
    var todo := snap.spec.networks.Keys;
    while todo != {}
      invariant Sorted(names) && todo <= snap.spec.networks.Keys
      invariant forall n :: n in names <==> n in snap.spec.networks.Keys - todo
    {
      var n :| n in todo;
      names := Insert(n, names);
      todo := todo - {n};
    }
    var primary := PrimaryNetwork(snap, names);
    extra := [];
    for i := 0 to |names|
      invariant forall n :: n in extra <==> n in names[..i] && n != primary
    {
      assert names[..i+1] == names[..i] + [names[i]];
      if names[i] != primary {
        extra := extra + [names[i]];
      }
    }
  }

  /** `name` is as it was, or was free and is borne by a newer container made from part of `wanted`. */
  ghost predicate Newcomer(w: World, w': World, name: Name, wanted: Spec) {
    SameAt(w, w', name) ||
    (!Taken(w, name) && name in w'.containers && var id := w'.containers[name].id; id >= w.next && MadeFrom(w', id, wanted))
  }

  method JoinNetwork(d: Daemon, id: Id, name: Name, wanted: Spec, network: string, ghost born: Id) returns (r: Call<()>)
    requires born <= id && d.Valid() && name in d.guarded && Holds(d.world, name, id)
    requires MadeFrom(d.world, id, wanted) && network in wanted.networks
    modifies d`world
    ensures d.Valid() && Bystanders(old(d.world), d.world, d.guarded, name, born)
    ensures Holds(d.world, name, id) && MadeFrom(d.world, id, wanted)
    ensures d.world.made[id].image == old(d.world).made[id].image
    ensures d.reliable ==> r.Replied? &&
                           d.world.made[id].spec.networks.Keys == old(d.world).made[id].spec.networks.Keys + {network}
  {
    var _ :- d.Connect(id, network, wanted.networks[network]);
    r := Replied(());
  }

  /** Connects a created container to its remaining networks, ignoring failures. */
  method JoinNetworks(d: Daemon, id: Id, name: Name, wanted: Spec, extra: seq<string>, ghost born: Id) returns (r: Call<()>)
    requires born <= id && d.Valid() && name in d.guarded && Holds(d.world, name, id)
    requires MadeFrom(d.world, id, wanted) && forall n :: n in extra ==> n in wanted.networks
    modifies d`world
    ensures d.Valid() && Bystanders(old(d.world), d.world, d.guarded, name, born)
    ensures Holds(d.world, name, id) && MadeFrom(d.world, id, wanted)
    ensures d.world.made[id].image == old(d.world).made[id].image
    ensures d.reliable ==> r.Replied?
    ensures d.reliable ==>
      d.world.made[id].spec.networks.Keys == old(d.world).made[id].spec.networks.Keys + set n | n in extra
  {
    ghost var m := d.world.made[id];
    for i := 0 to |extra|
      invariant d.Valid() && Bystanders(old(d.world), d.world, d.guarded, name, born)
      invariant Holds(d.world, name, id) && MadeFrom(d.world, id, wanted)
      invariant d.world.made[id].image == m.image
      invariant d.reliable ==>
        d.world.made[id].spec.networks.Keys == m.spec.networks.Keys + set n | n in extra[..i]
    {
      assert extra[..i+1] == extra[..i] + [extra[i]];
      ghost var before := d.world;
      var connected := JoinNetwork(d, id, name, wanted, extra[i], born);
      BystandersTransitive(old(d.world), before, d.world, d.guarded, name, born);
      var _ :- connected;
    }
    assert extra[..|extra|] == extra;
    r := Replied(());
  }

  /** Creates the container on its primary network only. */
  method CreateOnPrimary(d: Daemon, snap: Snapshot, wanted: Spec) returns (r: Call<Option<Id>>, extra: seq<string>)
    requires d.Valid() && snap.name in d.guarded && wanted.networks.Keys == snap.spec.networks.Keys
    modifies d`world
    ensures d.Valid() && Bystanders(old(d.world), d.world, d.guarded, snap.name, old(d.world).next)
    ensures Newcomer(old(d.world), d.world, snap.name, wanted)
    ensures forall n :: n in extra ==> n in wanted.networks
    ensures r.Replied? && r.value.Some? ==>
      && var id := r.value.value;
         && id >= old(d.world).next && Holds(d.world, snap.name, id) && MadeFrom(d.world, id, wanted)
         && forall n :: n in wanted.networks ==> n in d.world.made[id].spec.networks || n in extra
    ensures d.reliable ==> r.Replied? && (r.value.Some? <==> !Taken(old(d.world), snap.name) && Resolve(old(d.world), wanted.image).Some?)
    ensures d.reliable && r.value.Some? ==> Some(d.world.made[r.value.value].image) == Resolve(old(d.world), wanted.image)
    ensures d.reliable && r.value.None? ==> d.world == old(d.world)
  {
    var names;
    names, extra := ArrangeNetworks(snap);
    var primary := map n | n in wanted.networks && n !in extra :: wanted.networks[n];
    var created := d.Create(snap.name, wanted.(networks := primary));
    if created.Crashed? {
      return Crashed, extra;
    }
    r := Replied(if created.value.Success? then Some(created.value.value) else None);
  }

  /** Creates the container on every network it can join. */
  method CreateStopped(d: Daemon, snap: Snapshot, wanted: Spec) returns (r: Call<Option<Id>>)
    requires d.Valid() && snap.name in d.guarded && wanted.networks.Keys == snap.spec.networks.Keys
    modifies d`world
    ensures d.Valid() && Bystanders(old(d.world), d.world, d.guarded, snap.name, old(d.world).next)
    ensures Newcomer(old(d.world), d.world, snap.name, wanted)
    ensures r.Replied? && r.value.Some? ==>
      && var id := r.value.value;
         && id >= old(d.world).next && Holds(d.world, snap.name, id) && MadeFrom(d.world, id, wanted)
    ensures d.reliable ==> r.Replied? && (r.value.Some? <==> !Taken(old(d.world), snap.name) && Resolve(old(d.world), wanted.image).Some?)
    ensures d.reliable && r.value.Some? ==>
      d.world.made[r.value.value] == Make(Resolve(old(d.world), wanted.image).value, wanted)
    ensures d.reliable && r.value.None? ==> d.world == old(d.world)
  {
    ghost var w0 := d.world;
    var id, extra :- CreateOnPrimary(d, snap, wanted);
    if id.None? {
      return Replied(None);
    }
    ghost var w1 := d.world;
    var joined := JoinNetworks(d, id.value, snap.name, wanted, extra, w0.next);
    BystandersTransitive(w0, w1, d.world, d.guarded, snap.name, w0.next);
    var _ :- joined;
    r := Replied(id);
  }

  /** Create on the primary network, join the others, start. Failures to join are
      ignored, so a container that came up carries the whole spec exactly when it is
      on every network. */
  method Recreate(d: Daemon, snap: Snapshot, newImage: Option<Ref>) returns (r: Call<Rebuilt>)
    requires d.Valid() && snap.name in d.guarded
    modifies d`world
    ensures d.Valid() && Bystanders(old(d.world), d.world, d.guarded, snap.name, old(d.world).next)
    ensures Newcomer(old(d.world), d.world, snap.name, Wanted(snap, newImage))
    ensures r.Replied? && r.value.id.Some? ==>
      && var id := r.value.id.value;
         && id >= old(d.world).next && Holds(d.world, snap.name, id)
         && MadeFrom(d.world, id, Wanted(snap, newImage))
    ensures r.Replied? && r.value.ok ==> r.value.id.Some? && d.world.containers[snap.name].up
    ensures d.reliable ==> r.Replied? && (r.value.ok <==> CanCreate(old(d.world), snap, newImage))
    ensures d.reliable && r.value.ok ==>
      var wanted := Wanted(snap, newImage);
      d.world.made[r.value.id.value] == Make(Resolve(old(d.world), wanted.image).value, wanted)
    ensures d.reliable && !r.value.ok ==> r.value.id.None? && d.world == old(d.world)
  {
    ghost var w0 := d.world;
    var id :- CreateStopped(d, snap, Wanted(snap, newImage));
    if id.None? {
      return Replied(Rebuilt(None, false));
    }
    ghost var w1 := d.world;
    var started := d.Start(id.value);
    BystandersTransitive(w0, w1, d.world, d.guarded, snap.name, w0.next);
    var done :- started;
    r := Replied(Rebuilt(id, done.Success?));
  }

  predicate CanCreate(w: World, snap: Snapshot, newImage: Option<Ref>) {
    !Taken(w, snap.name) && Resolve(w, Wanted(snap, newImage).image).Some?
  }
}
