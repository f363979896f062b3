/** internal/docker/update.go, doUpdate, and internal/docker/selfupdate.go: deciding
    what to update, and handing Veery's own update to a helper container. */
module SelfUpdate {
  import opened Wrappers
  import opened Docker
  import opened Snapshots
  import opened Records
  import opened Jobs
  import opened Update

  const UPDATER_ROLE := "updater"

  predicate IsUpdater(labels: map<Label, string>) {
    VeeryRole in labels && labels[VeeryRole] == UPDATER_ROLE
  }

  /** Job ids are hexadecimal, so the name carries no parking suffix. */
  function UpdaterName(job: string): Name {
    Name("veery-updater-" + job, 0)
  }

  const NO_RESTART := "no"
  const NO_HEALTHCHECK := "NONE"

  function HelperCommand(own: Inspection, job: string): seq<string> {
    ["apply-update", "--container", Render(own.name), "--job", job]
  }

  /** The helper is made from Veery's image, by id, and reaches what Veery reaches. It
      publishes no port, is not restarted, and answers no healthcheck. */
  function HelperSpec(own: Inspection, job: string): Spec {
    Spec(Digest(own.image), map[VeeryRole := UPDATER_ROLE, VeeryJob := job],
         Config(own.spec.config.process, HelperCommand(own, job), NO_HEALTHCHECK, ""),
         Host(own.spec.host.access, "", NO_RESTART, ""), map[])
  }

  /** Marks the job as Veery's own and starts the helper. Veery's own container is
      left exactly as it is. */
  method HandOff(d: Daemon, t: JobTable, own: Inspection, job: string) returns (r: Call<Result<Id, ()>>)
    requires d.Valid() && own.name in d.guarded && UpdaterName(job) in d.guarded && own.name != UpdaterName(job)
    requires Holds(d.world, own.name, own.id)
    modifies d`world, d`disturbed, t
    ensures d.Valid() && Lineage(old(d.world), d.world, old(d.world).next)
    ensures Bystanders(old(d.world), d.world, d.guarded, UpdaterName(job), old(d.world).next)
    ensures own.id in d.disturbed ==> own.id in old(d.disturbed)
    ensures Wrote(old(t.jobs), t.jobs, t.reliable, Mark(job))
    ensures Succeeded(r) ==>
      && var id := r.value.value;
         && Holds(d.world, UpdaterName(job), id) && d.world.containers[UpdaterName(job)].up
         && id >= old(d.world).next && id in d.world.made
         && d.world.made[id] == Make(own.image, HelperSpec(own, job))
  {
    t.MarkSelf(job);
    var hname := UpdaterName(job);
    ghost var w0 := d.world;
    var cleared := d.RemoveNamed(hname);
    ghost var w1 := d.world;
    assert Bystanders(w0, w1, d.guarded, hname, w0.next);
    var _ :- cleared;
    var spec := HelperSpec(own, job);
    var create := d.Create(hname, spec);
    ghost var w2 := d.world;
    assert Bystanders(w1, w2, d.guarded, hname, w0.next);
    BystandersTransitive(w0, w1, w2, d.guarded, hname, w0.next);
    var created :- create;
    if created.Failure? {
      return Replied(created);
    }
    assert w2.made[created.value] == Make(own.image, spec);
    r := Launch(d, hname, created.value, own.id, own.name, w0.next);
    BystandersTransitive(w0, w2, d.world, d.guarded, hname, w0.next);
    assert d.world.made[created.value] == w2.made[created.value];
  }

  /** Starts the created helper, or removes it again if it will not start. */
  method Launch(d: Daemon, hname: Name, helper: Id, ghost ownId: Id, ghost own: Name, ghost born: Id)
    returns (r: Call<Result<Id, ()>>)
    requires d.Valid() && own in d.guarded && hname in d.guarded && own != hname
    requires Holds(d.world, hname, helper) && Holds(d.world, own, ownId) && helper >= born
    modifies d`world, d`disturbed
    ensures d.Valid() && Bystanders(old(d.world), d.world, d.guarded, hname, born)
    ensures ownId in d.disturbed ==> ownId in old(d.disturbed)
    ensures Lineage(old(d.world), d.world, old(d.world).next)
    ensures Succeeded(r) ==> r.value.value == helper && Holds(d.world, hname, helper) && d.world.containers[hname].up
  {
    ghost var w0 := d.world;
    var start := d.Start(helper);
    ghost var w1 := d.world;
    assert Bystanders(w0, w1, d.guarded, hname, born) && Holds(w1, own, ownId);
    var started :- start;
    if started.Success? {
      return Replied(Success(helper));
    }
    var removed := d.Remove(helper);
    assert Bystanders(w1, d.world, d.guarded, hname, born);
    BystandersTransitive(w0, w1, d.world, d.guarded, hname, born);
    var _ :- removed;
    r := Replied(Failure(()));
  }

  datatype UpdateError =
    | NoContainer | NotRecorded | NoReference | PullFailed
    | HandedOff | HandOffFailed
    | SwapFailed(fault: Fault)

  /** The live container and the spec it runs on, recorded first if it is news. */
  method ReadSpec(d: Daemon, st: Store, rowId: string, row: Row) returns (r: Call<Result<(Inspection, Snapshot), UpdateError>>)
    requires d.Valid() && row.name in d.guarded && Faithful(st.rows, d.world)
    requires rowId in st.rows && st.rows[rowId] == row && row.snapshot.name == row.name
    modifies d`world, st`rows
    ensures d.Valid() && Rely(old(d.world), d.world, d.guarded) && (d.reliable ==> d.world == old(d.world))
    ensures Faithful(st.rows, d.world)
    ensures Succeeded(r) ==>
      && var (was, snap) := r.value.value;
         && was.name == snap.name == row.name && Holds(d.world, row.name, was.id)
         && was.id in old(d.world).made && Core(snap.spec) == Core(old(d.world).made[was.id].spec)
         && was.image == old(d.world).made[was.id].image
    ensures r.Replied? && r.value.Failure? ==> r.value.error in {NoContainer, NotRecorded}
    ensures d.reliable ==> r.Replied? && (st.reliable && Taken(d.world, row.name) ==> r.value.Success?)
  {
    ghost var w0 := d.world;
    var looked := d.InspectName(row.name);
    FaithfulUnderInterference(st.rows, w0, d.world);
    var inspected :- looked;
    if inspected.Failure? {
      return Replied(Failure(NoContainer));
    }
    var was := inspected.value;
    RecordingIsFaithful(st.rows, d.world, rowId, was);
    assert Truthful(st.rows[rowId], d.world);
    assert Holds(w0, row.name, was.id) && d.world.made[was.id] == w0.made[was.id];
    var refreshed := st.RefreshIfRecreated(rowId, row, was);
    r := Replied(if refreshed.Success? then Success((was, refreshed.value)) else Failure(NotRecorded));
  }

  /** Pulls the image of a managed container and moves the container onto it when
      it is newer. True means it moved. */
  method DoUpdate(d: Daemon, st: Store, t: JobTable, self: Option<Id>, rowId: string, row: Row, job: string)
    returns (r: Call<Result<bool, UpdateError>>)
    requires d.Valid() && Guards(d.guarded, row.name) && UpdaterName(job) in d.guarded && row.name != UpdaterName(job)
    requires Parked(row.name) != UpdaterName(job)
    requires rowId in st.rows && st.rows[rowId] == row && row.snapshot.name == row.name
    requires Faithful(st.rows, d.world)
    modifies d`world, d`now, d`verified, d`disturbed, d`unstarted, st`rows, t
    ensures d.Valid() && Lineage(old(d.world), d.world, old(d.world).next)
    // The records stay true to the daemon.
    ensures Faithful(st.rows, d.world)
    // The container that was there is never lost.
    ensures Taken(old(d.world), row.name) ==>
      Survives(d.world, row.name, old(d.world).containers[row.name].id, d.verified)
    ensures Taken(old(d.world), row.name) && !Taken(old(d.world), Parked(row.name)) ==>
      Kept(d.world, row.name, old(d.world).containers[row.name].id, d.verified)
    // Veery never disturbs its own container.
    ensures self.Some? && Holds(old(d.world), row.name, self.value) && self.value !in old(d.disturbed) ==>
      self.value !in d.disturbed && SameAt(old(d.world), d.world, row.name)
    ensures r == Replied(Failure(HandedOff)) ==> self.Some? && Holds(old(d.world), row.name, self.value)
    // The job is marked as Veery's own if it is handed off, and only if it is to be.
    ensures t.jobs == old(t.jobs) || Wrote(old(t.jobs), t.jobs, t.reliable, Mark(job))
    ensures r == Replied(Failure(HandedOff)) ==> Wrote(old(t.jobs), t.jobs, t.reliable, Mark(job))
    ensures t.jobs != old(t.jobs) ==> self.Some? && Holds(old(d.world), row.name, self.value)
    // An update carries the spec of the live container it replaced.
    ensures r == Replied(Success(true)) ==> CarriesOver(old(d.world), d.world, row.name, d.reliable)
    // It is up to date only if it runs the image its reference now names.
    ensures r == Replied(Success(false)) ==> SameAt(old(d.world), d.world, row.name) && IsCurrent(d.world, row.name)
  {
    ghost var w0 := d.world;
    var read :- ReadSpec(d, st, rowId, row);
    if read.Failure? {
      return Replied(Failure(read.error));
    }
    var (was, snap) := read.value;
    var ref := snap.spec.image;
    if ref == Tag("") {
      return Replied(Failure(NoReference));
    }
    ghost var w1 := d.world;
    var pull := d.Pull(ref);
    ghost var w2 := d.world;
    FaithfulUnderInterference(st.rows, w1, w2);
    var pulled :- pull;
    if pulled.Failure? {
      return Replied(Failure(PullFailed));
    }
    if pulled.value == was.image {
      return Replied(Success(false));
    }
    r := Move(d, st, t, self, rowId, snap, was, job);
  }

  /** A newer image is there: a helper is to move Veery's own container onto it, and
      any other is swapped here. */
  method Move(d: Daemon, st: Store, t: JobTable, self: Option<Id>, rowId: string, snap: Snapshot, was: Inspection, job: string)
    returns (r: Call<Result<bool, UpdateError>>)
    requires d.Valid() && Guards(d.guarded, snap.name) && UpdaterName(job) in d.guarded && snap.name != UpdaterName(job)
    requires Parked(snap.name) != UpdaterName(job)
    requires was.name == snap.name && Holds(d.world, snap.name, was.id) && Faithful(st.rows, d.world)
    modifies d`world, d`now, d`verified, d`disturbed, d`unstarted, st`rows, t
    ensures d.Valid() && Lineage(old(d.world), d.world, old(d.world).next) && Faithful(st.rows, d.world)
    ensures Survives(d.world, snap.name, was.id, d.verified)
    ensures !Taken(old(d.world), Parked(snap.name)) ==> Kept(d.world, snap.name, was.id, d.verified)
    ensures self == Some(was.id) && was.id !in old(d.disturbed) ==> was.id !in d.disturbed && SameAt(old(d.world), d.world, snap.name)
    ensures t.jobs == old(t.jobs) || (self == Some(was.id) && Wrote(old(t.jobs), t.jobs, t.reliable, Mark(job)))
    ensures r == Replied(Failure(HandedOff)) ==> self == Some(was.id) && Wrote(old(t.jobs), t.jobs, t.reliable, Mark(job))
    ensures r != Replied(Success(false))
    ensures r == Replied(Success(true)) ==>
      && Taken(d.world, snap.name)
      && var id := d.world.containers[snap.name].id;
         && id >= old(d.world).next && MadeFrom(d.world, id, Core(snap.spec))
         && (d.reliable ==> Resolve(old(d.world), snap.spec.image).Some?
                            && d.world.made[id] == Make(Resolve(old(d.world), snap.spec.image).value, Core(snap.spec)))
  {
    if self == Some(was.id) {
      ghost var w := d.world;
      var hand := HandOff(d, t, was, job);
      FaithfulUnderInterference(st.rows, w, d.world);
      var handed :- hand;
      return Replied(Failure(if handed.Success? then HandedOff else HandOffFailed));
    }
    assert Wanted(snap, Some(snap.spec.image)) == Core(snap.spec);
    var swapped :- Swap(d, st, rowId, snap.name, snap, snap.spec.image, was);
    r := Replied(if swapped.Success? then Success(true) else Failure(SwapFailed(swapped.error)));
  }

  /** `name` passed to a new container made from what the previous one was made
      from, short only of networks it could not join. */
  ghost predicate CarriesOver(w: World, w': World, name: Name, whole: bool) {
    && Taken(w, name) && Taken(w', name)
    && var before, after := w.containers[name].id, w'.containers[name].id;
      && after >= w.next && before in w.made && after in w'.made
      && PartOf(w'.made[after].spec, Core(w.made[before].spec))
      && (whole ==> w'.made[after].spec == Core(w.made[before].spec) && w'.made[after].image != w.made[before].image)
  }

  /** The container runs the image its own reference names. */
  ghost predicate IsCurrent(w: World, name: Name) {
    && Taken(w, name)
    && var id := w.containers[name].id;
      id in w.made && Resolve(w, w.made[id].spec.image) == Some(w.made[id].image)
  }

  lemma CarriedOverWhole(spec: Spec, wanted: Spec)
    requires PartOf(spec, wanted)
    ensures spec == wanted <==> wanted.networks.Keys <= spec.networks.Keys
  {
    if wanted.networks.Keys <= spec.networks.Keys {
      assert spec.networks == wanted.networks;
    }
  }
}
