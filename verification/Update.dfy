/** internal/docker/update.go: the transactional swap of a container onto a new image. */
module Update {
  import opened Wrappers
  import opened Looks
  import opened Docker
  import opened Verification
  import opened Snapshots
  import opened Records

  // ---- What a swap must never lose ----

  /** `original` bears its name and nothing is parked under it. */
  predicate InPlace(w: World, name: Name, original: Id) {
    Holds(w, name, original) && !Taken(w, Parked(name))
  }

  /** The name belongs to a container known to be good, and nothing is parked. */
  predicate Replaced(w: World, name: Name, good: set<Id>) {
    Taken(w, name) && w.containers[name].id in good && !Taken(w, Parked(name))
  }

  /** The state any interruption of a swap of `name` leaves behind: the original in
      place, the original parked, or a good container in its stead. */
  predicate Kept(w: World, name: Name, original: Id, good: set<Id>) {
    InPlace(w, name, original) || Holds(w, Parked(name), original) || Replaced(w, name, good)
  }

  /** The user-visible half of `Kept`: the original exists, or the name is served. */
  predicate Survives(w: World, name: Name, original: Id, good: set<Id>) {
    || Holds(w, name, original)
    || Holds(w, Parked(name), original)
    || (Taken(w, name) && w.containers[name].id in good)
  }

  /** With nothing parked under it, the name is borne by a container that is up, or
      by one that is excused. */
  predicate UpUnless(w: World, name: Name, excused: set<Id>) {
    Taken(w, name) && !Taken(w, Parked(name)) ==> w.containers[name].up || w.containers[name].id in excused
  }

  /** Whoever bears the name or the parked name is the original or was made, at
      least in part, from `wanted`. */
  ghost predicate Cast(w: World, name: Name, original: Id, wanted: Spec) {
    CastAt(w, name, original, wanted) && CastAt(w, Parked(name), original, wanted)
  }

  ghost predicate CastAt(w: World, n: Name, original: Id, wanted: Spec) {
    Taken(w, n) ==>
      var id := w.containers[n].id;
      id == original || MadeFrom(w, id, wanted)
  }

  /** Nobody bears the name or the parked name who did not bear one of them before. */
  ghost predicate SameFaces(w: World, w': World, name: Name) {
    SameFaceAt(w, w', name, name) && SameFaceAt(w, w', Parked(name), name)
  }

  ghost predicate SameFaceAt(w: World, w': World, n: Name, name: Name) {
    Taken(w', n) ==> Holds(w, name, w'.containers[n].id) || Holds(w, Parked(name), w'.containers[n].id)
  }

  lemma CastKept(w: World, w': World, name: Name, original: Id, wanted: Spec)
    requires WellFormed(w) && WellFormed(w') && Lineage(w, w', w.next) && SameFaces(w, w', name)
    requires Cast(w, name, original, wanted)
    ensures Cast(w', name, original, wanted)
  {
  }

  // ---- The steps of a swap ----

  /** Renames the container to its parked name. */
  method PutAside(d: Daemon, oldId: Id, name: Name) returns (r: Call<Result<(), ()>>)
    requires d.Valid() && Guards(d.guarded, name) && Holds(d.world, name, oldId)
    modifies d`world, d`disturbed
    ensures d.Valid() && Lineage(old(d.world), d.world, old(d.world).next)
    ensures Elsewhere(old(d.world), d.world, d.guarded, name)
    ensures SameFaces(old(d.world), d.world, name)
    ensures Holds(d.world, name, oldId) || Holds(d.world, Parked(name), oldId)
    ensures !Taken(old(d.world), Parked(name)) ==> InPlace(d.world, name, oldId) || Holds(d.world, Parked(name), oldId)
    ensures Holds(d.world, name, oldId) ==> d.world.containers[name] == old(d.world).containers[name]
    ensures Succeeded(r) ==> Holds(d.world, Parked(name), oldId) && !Taken(d.world, name)
    ensures d.reliable ==> r.Replied? && (r.value.Success? <==> !Taken(old(d.world), Parked(name)))
    ensures d.reliable ==> d.world.tags == old(d.world).tags && d.world.images == old(d.world).images
  {
    r := d.Rename(oldId, Parked(name));
  }

  /** Gives a parked container its name back. */
  method PutBack(d: Daemon, oldId: Id, name: Name) returns (r: Call<Result<(), ()>>)
    requires d.Valid() && Guards(d.guarded, name) && Holds(d.world, Parked(name), oldId)
    modifies d`world, d`disturbed
    ensures d.Valid() && Lineage(old(d.world), d.world, old(d.world).next)
    ensures Elsewhere(old(d.world), d.world, d.guarded, name)
    ensures SameFaces(old(d.world), d.world, name)
    ensures InPlace(d.world, name, oldId) || Holds(d.world, Parked(name), oldId)
    ensures Succeeded(r) ==> InPlace(d.world, name, oldId)
    ensures d.reliable ==> r.Replied? && (r.value.Success? <==> !Taken(old(d.world), name))
    ensures d.reliable ==> d.world == Reseated(old(d.world), oldId, name)
  {
    r := d.Rename(oldId, name);
  }

  /** Gives a parked container its name back and starts it. */
  method Restore(d: Daemon, oldId: Id, name: Name) returns (r: Call<Result<(), ()>>)
    requires d.Valid() && Guards(d.guarded, name) && Holds(d.world, Parked(name), oldId)
    modifies d`world, d`disturbed, d`unstarted
    ensures d.Valid() && Lineage(old(d.world), d.world, old(d.world).next)
    ensures Elsewhere(old(d.world), d.world, d.guarded, name)
    ensures SameFaces(old(d.world), d.world, name)
    ensures InPlace(d.world, name, oldId) || Holds(d.world, Parked(name), oldId)
    ensures Succeeded(r) ==> InPlace(d.world, name, oldId) && d.world.containers[name].up
    ensures d.reliable ==> r.Replied? && (r.value.Success? <==> !Taken(old(d.world), name))
    ensures d.reliable && !Taken(old(d.world), name) ==> d.world == Raised(Reseated(old(d.world), oldId, name), oldId)
    ensures d.unstarted == if Succeeded(r) then old(d.unstarted) else old(d.unstarted) + {oldId}
  {
    d.unstarted := d.unstarted + {oldId};
    var renamed :- PutBack(d, oldId, name);
    if renamed.Failure? {
      return Replied(renamed);
    }
    r := d.Start(oldId);
    if Succeeded(r) {
      d.unstarted := old(d.unstarted);
    }
  }

  /** Undoes a swap: removes the new container if there is one and restores the
      parked one. Succeeds only if the service is back. */
  method Rollback(d: Daemon, newId: Option<Id>, oldId: Id, name: Name) returns (r: Call<Result<(), ()>>)
    requires d.Valid() && Guards(d.guarded, name)
    requires Holds(d.world, Parked(name), oldId) && (newId.Some? ==> Holds(d.world, name, newId.value))
    modifies d`world, d`disturbed, d`unstarted
    ensures d.Valid() && Lineage(old(d.world), d.world, old(d.world).next)
    ensures Elsewhere(old(d.world), d.world, d.guarded, name)
    ensures SameFaces(old(d.world), d.world, name)
    ensures InPlace(d.world, name, oldId) || Holds(d.world, Parked(name), oldId)
    ensures Succeeded(r) ==> InPlace(d.world, name, oldId) && d.world.containers[name].up
    ensures d.reliable ==> r.Replied? && (r.value.Success? <==> newId.Some? || !Taken(old(d.world), name))
    ensures d.reliable && newId.Some? ==>
      d.world == Raised(Reseated(Dropped(old(d.world), newId.value), oldId, name), oldId)
    ensures old(d.unstarted) <= d.unstarted <= old(d.unstarted) + {oldId}
    ensures UpUnless(d.world, name, d.unstarted)
    ensures d.reliable && newId.Some? ==> d.unstarted == old(d.unstarted)
    ensures d.reliable && !Taken(old(d.world), name) ==> d.unstarted == old(d.unstarted)
  {
    if newId.Some? {
      var removed := d.Remove(newId.value);
      assert Holds(d.world, Parked(name), oldId);
      var _ :- removed;
    }
    r := Restore(d, oldId, name);
  }

  /** Clears a leftover, renames the old container out of the way and stops it. */
  method Park(d: Daemon, oldId: Id, name: Name, running: bool) returns (r: Call<Result<(), ()>>)
    requires d.Valid() && Guards(d.guarded, name) && Holds(d.world, name, oldId)
    modifies d`world, d`disturbed
    ensures d.Valid() && Lineage(old(d.world), d.world, old(d.world).next)
    ensures Elsewhere(old(d.world), d.world, d.guarded, name)
    ensures !Taken(old(d.world), Parked(name)) ==> SameFaces(old(d.world), d.world, name)
    ensures Holds(d.world, name, oldId) || Holds(d.world, Parked(name), oldId)
    ensures !Taken(old(d.world), Parked(name)) ==> InPlace(d.world, name, oldId) || Holds(d.world, Parked(name), oldId)
    ensures Holds(d.world, name, oldId) ==> d.world.containers[name] == old(d.world).containers[name]
    ensures Succeeded(r) ==> Holds(d.world, Parked(name), oldId) && !Taken(d.world, name)
    ensures d.reliable ==> Succeeded(r) && (running ==> !d.world.containers[Parked(name)].up)
    ensures d.reliable ==> d.world.tags == old(d.world).tags && d.world.images == old(d.world).images
  {
    var cleared := d.RemoveNamed(Parked(name));
    assert Holds(d.world, name, oldId);
    var _ :- cleared;
    var renamed :- PutAside(d, oldId, name);
    if renamed.Failure? {
      return Replied(renamed);
    }
    if running {
      var stopped := d.Stop(oldId);
      var _ :- stopped;
    }
    r := Replied(Success(()));
  }

  /** The new container, or the one to clear away when it is not fit to keep. */
  datatype Installed = Fit(id: Id) | Unfit(leftover: Option<Id>)

  /** Creates the replacement and holds it to the verification bar. */
  method Install(d: Daemon, snap: Snapshot, ref: Ref, ghost oldId: Id) returns (r: Call<Installed>)
    requires d.Valid() && Guards(d.guarded, snap.name) && Holds(d.world, Parked(snap.name), oldId)
    modifies d`world, d`now, d`verified
    ensures d.Valid() && Lineage(old(d.world), d.world, old(d.world).next)
    ensures Elsewhere(old(d.world), d.world, d.guarded, snap.name)
    ensures Holds(d.world, Parked(snap.name), oldId) && old(d.verified) <= d.verified
    ensures r.Replied? && r.value.Fit? ==>
      && var id := r.value.id;
         && id >= old(d.world).next && id in d.verified
         && Holds(d.world, snap.name, id) && d.world.containers[snap.name].up
         && MadeFrom(d.world, id, Wanted(snap, Some(ref)))
    ensures r.Replied? && r.value.Unfit? && r.value.leftover.Some? ==> Holds(d.world, snap.name, r.value.leftover.value)
    ensures d.reliable && !Taken(old(d.world), snap.name) ==> r.Replied?
    ensures d.reliable && !Taken(old(d.world), snap.name) && r.value.Fit? ==>
      Resolve(old(d.world), ref).Some?
      && d.world.made[r.value.id] == Make(Resolve(old(d.world), ref).value, Wanted(snap, Some(ref)))
    ensures d.reliable && !Taken(old(d.world), snap.name) && r.value.Unfit? ==>
      r.value.leftover.Some? || !Taken(d.world, snap.name)
    ensures Newcomer(old(d.world), d.world, snap.name, Wanted(snap, Some(ref)))
  {
    ghost var w0 := d.world;
    var built :- Recreate(d, snap, Some(ref));
    if !built.ok {
      return Replied(Unfit(built.id));
    }
    var id := built.id.value;
    ghost var w1 := d.world;
    var verdict, _ := VerifyHealthy(d, id);
    assert d.world.made[id] == w1.made[id];
    var healthy :- verdict;
    r := Replied(if healthy.Success? then Fit(id) else Unfit(Some(id)));
  }

  /** Drops the parked container, now that its replacement has proved itself. */
  method Retire(d: Daemon, oldId: Id, name: Name, ghost newId: Id) returns (r: Call<Result<(), ()>>)
    requires d.Valid() && Guards(d.guarded, name)
    requires Holds(d.world, Parked(name), oldId) && Holds(d.world, name, newId)
    modifies d`world, d`disturbed
    ensures d.Valid() && Lineage(old(d.world), d.world, old(d.world).next)
    ensures SameFaces(old(d.world), d.world, name)
    ensures Elsewhere(old(d.world), d.world, d.guarded, name)
    ensures Holds(d.world, name, newId) && d.world.containers[name] == old(d.world).containers[name]
    ensures Holds(d.world, Parked(name), oldId) || !Taken(d.world, Parked(name))
    ensures Succeeded(r) ==> !Taken(d.world, Parked(name))
    ensures !Taken(d.world, Parked(name)) ==> !Exists(d.world, oldId)
    ensures d.reliable ==> Succeeded(r)
    ensures d.reliable ==> d.world == Dropped(old(d.world), oldId)
  {
    r := d.Remove(oldId);
  }

  /** Success is committed: the parked container goes and the record follows the new one. */
  method Commit(d: Daemon, st: Store, rowId: string, name: Name, oldId: Id, newId: Id) returns (r: Call<()>)
    requires d.Valid() && Guards(d.guarded, name)
    requires Holds(d.world, Parked(name), oldId) && Holds(d.world, name, newId) && Faithful(st.rows, d.world)
    modifies d`world, d`disturbed, st`rows
    ensures d.Valid() && Lineage(old(d.world), d.world, old(d.world).next)
    ensures Elsewhere(old(d.world), d.world, d.guarded, name)
    ensures SameFaces(old(d.world), d.world, name)
    ensures Holds(d.world, name, newId) && d.world.containers[name] == old(d.world).containers[name]
    ensures Holds(d.world, Parked(name), oldId) || !Taken(d.world, Parked(name))
    ensures !Taken(d.world, Parked(name)) ==> !Exists(d.world, oldId)
    ensures d.reliable ==> r.Replied? && !Taken(d.world, Parked(name))
    ensures Faithful(st.rows, d.world)
    ensures st.rows.Keys == old(st.rows).Keys
    ensures d.reliable && st.reliable && rowId in st.rows ==> st.rows[rowId].container == Some(newId)
  {
    ghost var w := d.world;
    var retired := Retire(d, oldId, name, newId);
    ghost var w' := d.world;
    FaithfulUnderInterference(st.rows, w, w');
    var _ :- retired;
    var looked := d.Inspect(newId);
    FaithfulUnderInterference(st.rows, w', d.world);
    var seen :- looked;
    if seen.Success? {
      if rowId in st.rows {
        RecordingIsFaithful(st.rows, d.world, rowId, seen.value);
      }
      var _ := st.RecordSpec(rowId, seen.value);
    }
    r := Replied(());
  }

  // ---- The swap ----

  /** The name has passed to a new container that is up, among the good ones and made
      from `wanted`, short perhaps of networks; the old one is parked or gone. */
  ghost predicate Took(w: World, w': World, name: Name, oldId: Id, newId: Id, good: set<Id>, wanted: Spec) {
    && newId >= w.next && newId in good && Holds(w', name, newId) && w'.containers[name].up && MadeFrom(w', newId, wanted)
    && (Holds(w', Parked(name), oldId) || (!Taken(w', Parked(name)) && !Exists(w', oldId)))
  }

  /** Nothing is parked any more, and the new container is made from all of `wanted`
      and the image its reference named. */
  ghost predicate TookWhole(w: World, w': World, name: Name, newId: Id, ref: Ref, wanted: Spec) {
    && !Taken(w', Parked(name)) && Resolve(w, ref).Some?
    && newId in w'.made && w'.made[newId] == Make(Resolve(w, ref).value, wanted)
  }

  datatype Fault = ParkFailed | RolledBack | ServiceDown

  /** Installs the replacement of a parked container, or rolls back. */
  method Replace(d: Daemon, snap: Snapshot, ref: Ref, oldId: Id) returns (r: Call<Result<Id, Fault>>)
    requires d.Valid() && Guards(d.guarded, snap.name) && Holds(d.world, Parked(snap.name), oldId)
    modifies d`world, d`now, d`verified, d`disturbed, d`unstarted
    ensures d.Valid() && Lineage(old(d.world), d.world, old(d.world).next)
    ensures Elsewhere(old(d.world), d.world, d.guarded, snap.name)
    ensures old(d.verified) <= d.verified
    ensures old(d.unstarted) <= d.unstarted <= old(d.unstarted) + {oldId} && UpUnless(d.world, snap.name, d.unstarted)
    ensures d.reliable && !Taken(old(d.world), snap.name) ==> d.unstarted == old(d.unstarted)
    ensures InPlace(d.world, snap.name, oldId) || Holds(d.world, Parked(snap.name), oldId)
    ensures Succeeded(r) ==>
      && var id := r.value.value;
         && id >= old(d.world).next && id in d.verified
         && Holds(d.world, snap.name, id) && d.world.containers[snap.name].up
         && MadeFrom(d.world, id, Wanted(snap, Some(ref)))
    ensures r.Replied? && r.value.Failure? ==> r.value.error != ParkFailed
    ensures r == Replied(Failure(RolledBack)) ==> InPlace(d.world, snap.name, oldId) && d.world.containers[snap.name].up
    ensures d.reliable && !Taken(old(d.world), snap.name) ==> r.Replied? && (r.value.Success? || r.value.error == RolledBack)
    ensures d.reliable && !Taken(old(d.world), snap.name) && Succeeded(r) ==>
      Resolve(old(d.world), ref).Some?
      && d.world.made[r.value.value] == Make(Resolve(old(d.world), ref).value, Wanted(snap, Some(ref)))
    ensures !Taken(old(d.world), snap.name) ==> Cast(d.world, snap.name, oldId, Wanted(snap, Some(ref)))
  {
    var install := Install(d, snap, ref, oldId);
    assert !Taken(old(d.world), snap.name) ==> Cast(d.world, snap.name, oldId, Wanted(snap, Some(ref)));
    var installed :- install;
    if installed.Fit? {
      return Replied(Success(installed.id));
    }
    ghost var w := d.world;
    var undo := Rollback(d, installed.leftover, oldId, snap.name);
    if Cast(w, snap.name, oldId, Wanted(snap, Some(ref))) {
      CastKept(w, d.world, snap.name, oldId, Wanted(snap, Some(ref)));
    }
    var undone :- undo;
    r := Replied(Failure(if undone.Success? then RolledBack else ServiceDown));
  }

  /** The parked container's replacement takes over for good, or the swap is undone. */
  method Exchange(d: Daemon, st: Store, rowId: string, snap: Snapshot, ref: Ref, oldId: Id) returns (r: Call<Result<Id, Fault>>)
    requires d.Valid() && Guards(d.guarded, snap.name) && Faithful(st.rows, d.world)
    requires Holds(d.world, Parked(snap.name), oldId) && !Taken(d.world, snap.name)
    modifies d`world, d`now, d`verified, d`disturbed, d`unstarted, st`rows
    ensures d.Valid() && Lineage(old(d.world), d.world, old(d.world).next)
    ensures Elsewhere(old(d.world), d.world, d.guarded, snap.name)
    ensures old(d.verified) <= d.verified
    ensures old(d.unstarted) <= d.unstarted <= old(d.unstarted) + {oldId} && UpUnless(d.world, snap.name, d.unstarted)
    ensures d.reliable ==> d.unstarted == old(d.unstarted)
    ensures Kept(d.world, snap.name, oldId, d.verified)
    ensures Cast(d.world, snap.name, oldId, Wanted(snap, Some(ref)))
    ensures Succeeded(r) ==> Took(old(d.world), d.world, snap.name, oldId, r.value.value, d.verified, Wanted(snap, Some(ref)))
    ensures r.Replied? && r.value.Failure? ==> r.value.error != ParkFailed
    ensures r == Replied(Failure(RolledBack)) ==> InPlace(d.world, snap.name, oldId) && d.world.containers[snap.name].up
    ensures r == Replied(Failure(ServiceDown)) ==> InPlace(d.world, snap.name, oldId) || Holds(d.world, Parked(snap.name), oldId)
    ensures d.reliable ==> r.Replied? && (r.value.Success? || r.value.error == RolledBack)
    ensures d.reliable && Succeeded(r) ==> TookWhole(old(d.world), d.world, snap.name, r.value.value, ref, Wanted(snap, Some(ref)))
    ensures Faithful(st.rows, d.world)
    // The record follows the new container, and stays as it was if there is none.
    ensures st.rows.Keys == old(st.rows).Keys
    ensures r.Replied? && r.value.Failure? ==> st.rows == old(st.rows)
    ensures d.reliable && st.reliable && Succeeded(r) && rowId in st.rows ==> st.rows[rowId].container == Some(r.value.value)
  {
    ghost var w0 := d.world;
    var replace := Replace(d, snap, ref, oldId);
    FaithfulUnderInterference(st.rows, w0, d.world);
    var replaced :- replace;
    if replaced.Failure? {
      return Replied(replaced);
    }
    r := Conclude(d, st, rowId, snap.name, oldId, replaced.value, Wanted(snap, Some(ref)));
  }

  /** The swap took. */
  method Conclude(d: Daemon, st: Store, rowId: string, name: Name, oldId: Id, newId: Id, ghost wanted: Spec) returns (r: Call<Result<Id, Fault>>)
    requires d.Valid() && Guards(d.guarded, name) && Faithful(st.rows, d.world)
    requires Holds(d.world, Parked(name), oldId) && Holds(d.world, name, newId) && d.world.containers[name].up
    requires newId in d.verified && Cast(d.world, name, oldId, wanted)
    modifies d`world, d`disturbed, st`rows
    ensures d.Valid() && Lineage(old(d.world), d.world, old(d.world).next)
    ensures Elsewhere(old(d.world), d.world, d.guarded, name)
    ensures Holds(d.world, name, newId) && d.world.containers[name].up && d.world.made[newId] == old(d.world).made[newId]
    ensures Holds(d.world, Parked(name), oldId) || (!Taken(d.world, Parked(name)) && !Exists(d.world, oldId))
    ensures Cast(d.world, name, oldId, wanted)
    ensures r.Crashed? || r.value == Success(newId)
    ensures d.reliable ==> r.Replied? && !Taken(d.world, Parked(name))
    ensures Faithful(st.rows, d.world) && st.rows.Keys == old(st.rows).Keys
    ensures d.reliable && st.reliable && rowId in st.rows ==> st.rows[rowId].container == Some(newId)
  {
    ghost var w := d.world;
    var commit := Commit(d, st, rowId, name, oldId, newId);
    CastKept(w, d.world, name, oldId, wanted);
    var _ :- commit;
    r := Replied(Success(newId));
  }

  /** Park, install, and commit or roll back. Whatever fails, and wherever the process
      dies, the original survives or a verified container serves the name. */
  method Swap(d: Daemon, st: Store, rowId: string, name: Name, snap: Snapshot, ref: Ref, was: Inspection)
    returns (r: Call<Result<Id, Fault>>)
    requires d.Valid() && Guards(d.guarded, name) && snap.name == name
    requires Holds(d.world, name, was.id) && Faithful(st.rows, d.world)
    modifies d`world, d`now, d`verified, d`disturbed, d`unstarted, st`rows
    ensures d.Valid() && Lineage(old(d.world), d.world, old(d.world).next)
    ensures Elsewhere(old(d.world), d.world, d.guarded, name)
    ensures old(d.verified) <= d.verified
    // A container that was up is left so, but for one put back with no confirmed start.
    ensures old(d.unstarted) <= d.unstarted <= old(d.unstarted) + {was.id}
    ensures d.reliable ==> d.unstarted == old(d.unstarted)
    ensures old(d.world).containers[name].up ==> UpUnless(d.world, name, d.unstarted)
    ensures Survives(d.world, name, was.id, d.verified)
    ensures !Taken(old(d.world), Parked(name)) ==> Kept(d.world, name, was.id, d.verified)
    ensures !Taken(old(d.world), Parked(name)) ==> Cast(d.world, name, was.id, Wanted(snap, Some(ref)))
    ensures Succeeded(r) ==> Took(old(d.world), d.world, name, was.id, r.value.value, d.verified, Wanted(snap, Some(ref)))
    ensures r == Replied(Failure(RolledBack)) ==> InPlace(d.world, name, was.id) && d.world.containers[name].up
    ensures r == Replied(Failure(ServiceDown)) ==> InPlace(d.world, name, was.id) || Holds(d.world, Parked(name), was.id)
    ensures d.reliable ==> r.Replied? && (r.value.Success? || r.value.error == RolledBack)
    ensures d.reliable && Succeeded(r) ==> TookWhole(old(d.world), d.world, name, r.value.value, ref, Wanted(snap, Some(ref)))
    ensures Faithful(st.rows, d.world)
    // The record follows the new container, and stays as it was if there is none.
    ensures st.rows.Keys == old(st.rows).Keys
    ensures r.Replied? && r.value.Failure? ==> st.rows == old(st.rows)
    ensures d.reliable && st.reliable && Succeeded(r) && rowId in st.rows ==> st.rows[rowId].container == Some(r.value.value)
  {
    ghost var w0 := d.world;
    var running := was.state.Some? && was.state.value.running;
    var park := Park(d, was.id, name, running);
    FaithfulUnderInterference(st.rows, w0, d.world);
    assert !Taken(w0, Parked(name)) ==> Cast(d.world, name, was.id, Wanted(snap, Some(ref)));
    var parked :- park;
    if parked.Failure? {
      return Replied(Failure(ParkFailed));
    }
    assert d.reliable ==> Resolve(d.world, ref) == Resolve(w0, ref);
    r := Exchange(d, st, rowId, snap, ref, was.id);
  }
}
