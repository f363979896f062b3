/** internal/docker/update.go, Update, and internal/docker/selfupdate.go, ApplyUpdate:
    the two runs of an update, in Veery's own process and in the helper's, and the
    job rows they leave. */
module Updater {
  import opened Wrappers
  import opened Docker
  import opened Snapshots
  import opened Records
  import opened Jobs
  import opened Update
  import opened SelfUpdate

  /** Update: runs an update as a job. Handing it to a helper leaves the row open
      for the helper; every other outcome closes it. */
  method RunUpdate(d: Daemon, st: Store, t: JobTable, self: Option<Id>, rowId: string, row: Row, job: string)
    returns (r: Call<Result<bool, UpdateError>>)
    requires d.Valid() && Guards(d.guarded, row.name) && UpdaterName(job) in d.guarded && row.name != UpdaterName(job)
    requires Parked(row.name) != UpdaterName(job)
    requires rowId in st.rows && st.rows[rowId] == row && row.snapshot.name == row.name
    requires Faithful(st.rows, d.world) && job !in t.jobs
    modifies d`world, d`now, d`verified, d`disturbed, d`unstarted, st`rows, t
    ensures d.Valid() && Lineage(old(d.world), d.world, old(d.world).next) && Faithful(st.rows, d.world)
    ensures Taken(old(d.world), row.name) ==>
      Survives(d.world, row.name, old(d.world).containers[row.name].id, d.verified)
    ensures t.reliable ==> job in t.jobs && t.jobs[job].name == row.name
    ensures t.reliable && r.Crashed? ==> !t.jobs[job].done
    ensures t.reliable && r.Replied? ==> (t.jobs[job].done <==> r.value != Failure(HandedOff))
    ensures t.reliable && r == Replied(Failure(HandedOff)) ==> t.jobs[job].self
    ensures t.reliable && r.Replied? && t.jobs[job].done ==> (t.jobs[job].phase == "done" <==> r.value.Success?)
    ensures forall k :: k in old(t.jobs) ==> k in t.jobs && t.jobs[k] == old(t.jobs)[k]
  {
    t.StartUpdateJob(job, row.name, "start", "");
    r := DoUpdate(d, st, t, self, rowId, row, job);
    if r.Crashed? || r.value == Failure(HandedOff) {
      return;
    }
    FinishRun(t, job, r.value);
  }

  method FinishRun(t: JobTable, job: string, outcome: Result<bool, UpdateError>)
    modifies t
    ensures Wrote(old(t.jobs), t.jobs, t.reliable, Ending(job, outcome))
  {
    match outcome {
      case Failure(_) => t.Finish(job, "failed", "", "the update failed");
      case Success(true) => t.Finish(job, "done", "Updated", "");
      case Success(false) => t.Finish(job, "done", "Already up to date", "");
    }
  }

  function Ending(job: string, outcome: Result<bool, UpdateError>): (w: Write)
    ensures w.Close? && w.id == job && (w.phase == "done" <==> outcome.Success?)
  {
    match outcome
    case Failure(_) => Close(job, "failed", "", "the update failed")
    case Success(moved) => Close(job, "done", if moved then "Updated" else "Already up to date", "")
  }

  /** finishApply: the helper closes the row it was handed. */
  method FinishApply(t: JobTable, job: string, failed: bool)
    modifies t
    ensures Wrote(old(t.jobs), t.jobs, t.reliable,
                  if failed then Close(job, "failed", "", "the update failed") else Close(job, "done", "Updated", ""))
  {
    if failed {
      t.Finish(job, "failed", "", "the update failed");
    } else {
      t.Finish(job, "done", "Updated", "");
    }
  }

  /** The image `ref` names, pulled only if there is none locally. */
  method LocalImage(d: Daemon, ref: Ref) returns (r: Call<Result<ImageId, ()>>)
    requires d.Valid()
    modifies d`world
    ensures d.Valid() && Rely(old(d.world), d.world, d.guarded)
    ensures Succeeded(r) ==> Resolve(d.world, ref) == Some(r.value.value)
    ensures d.reliable ==> r.Replied? && d.world == old(d.world).(images := d.world.images, tags := d.world.tags)
    ensures d.reliable && Resolve(old(d.world), ref).Some? ==>
      d.world == old(d.world) && r == Replied(Success(Resolve(old(d.world), ref).value))
  {
    ghost var w0 := d.world;
    var look := d.InspectImage(ref);
    ghost var w1 := d.world;
    var image :- look;
    if image.Success? {
      return Replied(image);
    }
    r := d.Pull(ref);
    RelyTransitive(w0, w1, d.world, d.guarded);
  }

  /** Refused before its image was looked up. */
  predicate IsEarly(r: Result<bool, UpdateError>) {
    r.Failure? && r.error in {NoContainer, NotRecorded, NoReference}
  }

  predicate Unmanaged(rows: map<string, Row>, name: Name) {
    forall k :: k in rows ==> rows[k].name != name
  }

  /** There is no container to update, or it was made from no reference. */
  predicate NothingToRenew(w: World, name: Name)
    requires WellFormed(w)
  {
    !Taken(w, name) || w.made[w.containers[name].id].spec.image == Tag("")
  }

  /** ApplyUpdate: the swap of a container from outside it. Refusals before the
      image is looked up leave the job row open, for a later start to settle. */
  method ApplyUpdate(d: Daemon, st: Store, t: JobTable, name: Name, job: string)
    returns (r: Call<Result<bool, UpdateError>>)
    requires d.Valid() && Guards(d.guarded, name) && Faithful(st.rows, d.world)
    requires forall k :: k in st.rows && st.rows[k].name == name ==> st.rows[k].snapshot.name == name
    modifies d`world, d`now, d`verified, d`disturbed, d`unstarted, st`rows, t
    ensures d.Valid() && Lineage(old(d.world), d.world, old(d.world).next) && Faithful(st.rows, d.world)
    ensures Taken(old(d.world), name) ==>
      Survives(d.world, name, old(d.world).containers[name].id, d.verified)
    ensures Taken(old(d.world), name) && !Taken(old(d.world), Parked(name)) ==>
      Kept(d.world, name, old(d.world).containers[name].id, d.verified)
    ensures r == Replied(Success(true)) ==> CarriesOver(old(d.world), d.world, name, d.reliable)
    ensures r == Replied(Success(false)) ==> SameAt(old(d.world), d.world, name) && IsCurrent(d.world, name)
    ensures r.Crashed? ==> t.jobs == old(t.jobs)
    ensures r.Replied? ==>
      if IsEarly(r.value) then t.jobs == old(t.jobs)
      else Wrote(old(t.jobs), t.jobs, t.reliable,
                 if r.value.Failure? then Close(job, "failed", "", "the update failed") else Close(job, "done", "Updated", ""))
    // Exactly when it is refused early.
    ensures d.reliable && st.reliable ==>
      r.Replied? && (IsEarly(r.value) <==> Unmanaged(old(st.rows), name) || NothingToRenew(old(d.world), name))
  {
    var found := st.ManagedByName(name);
    if found.None? {
      return Replied(Failure(NotRecorded));
    }
    r := Renew(d, st, found.value, name);
    if r.Crashed? || IsEarly(r.value) {
      return;
    }
    FinishApply(t, job, r.value.Failure?);
  }

  /** A helper whose container has gone leaves its job's row unfinished behind. */
  method ApplyingToNothing(d: Daemon, st: Store, t: JobTable, name: Name, job: string)
    requires d.Valid() && Guards(d.guarded, name) && Faithful(st.rows, d.world) && d.reliable && st.reliable
    requires forall k :: k in st.rows && st.rows[k].name == name ==> st.rows[k].snapshot.name == name
    requires !Taken(d.world, name) && job in t.jobs && !t.jobs[job].done
    modifies d`world, d`now, d`verified, d`disturbed, d`unstarted, st`rows, t
    ensures t.jobs == old(t.jobs) && !t.jobs[job].done
  {
    var _ := ApplyUpdate(d, st, t, name, job);
  }

  /** Moves the container onto the image its spec asks for, if that is another. */
  method Renew(d: Daemon, st: Store, rowId: string, name: Name) returns (r: Call<Result<bool, UpdateError>>)
    requires d.Valid() && Guards(d.guarded, name) && Faithful(st.rows, d.world)
    requires rowId in st.rows && st.rows[rowId].name == name && st.rows[rowId].snapshot.name == name
    modifies d`world, d`now, d`verified, d`disturbed, d`unstarted, st`rows
    ensures d.Valid() && Lineage(old(d.world), d.world, old(d.world).next) && Faithful(st.rows, d.world)
    ensures Taken(old(d.world), name) ==>
      Survives(d.world, name, old(d.world).containers[name].id, d.verified)
    ensures Taken(old(d.world), name) && !Taken(old(d.world), Parked(name)) ==>
      Kept(d.world, name, old(d.world).containers[name].id, d.verified)
    ensures r == Replied(Success(true)) ==> CarriesOver(old(d.world), d.world, name, d.reliable)
    ensures r == Replied(Success(false)) ==> SameAt(old(d.world), d.world, name) && IsCurrent(d.world, name)
    ensures d.reliable && st.reliable ==> r.Replied? && (IsEarly(r.value) <==> NothingToRenew(old(d.world), name))
  {
    ghost var w0 := d.world;
    var read :- ReadSpec(d, st, rowId, st.rows[rowId]);
    if read.Failure? {
      return Replied(Failure(read.error));
    }
    var (was, snap) := read.value;
    var ref := snap.spec.image;
    if ref == Tag("") {
      return Replied(Failure(NoReference));
    }
    ghost var w1 := d.world;
    var look := LocalImage(d, ref);
    FaithfulUnderInterference(st.rows, w1, d.world);
    RelyTransitive(w0, w1, d.world, d.guarded);
    var image :- look;
    if image.Failure? {
      return Replied(Failure(PullFailed));
    }
    if image.value == was.image {
      return Replied(Success(false));
    }
    var swapped :- Swap(d, st, rowId, name, snap, ref, was);
    assert Wanted(snap, Some(ref)) == Core(snap.spec);
    r := Replied(if swapped.Success? then Success(true) else Failure(SwapFailed(swapped.error)));
  }
}
