/** internal/docker/recover.go, Recover and resumeJobs: what Veery does when it
    starts, before it serves. */
module Startup {
  import opened Wrappers
  import opened Docker
  import opened Snapshots
  import opened Records
  import opened Jobs
  import opened Update
  import opened SelfUpdate
  import opened Recovery

  // ---- Settling jobs whose worker is gone ----

  const INTERRUPTED := "Veery restarted before the update finished; the container was left on its previous image"

  /** What a job row is closed with: whether the container runs the image its
      snapshot asks for, or why that cannot be told. */
  function Settlement(w: World, row: Option<Row>, name: Name): Result<bool, string>
    requires WellFormed(w)
  {
    if row.None? then Failure("no longer managed: " + Render(name))
    else if !Taken(w, name) then Failure("container is gone: " + Render(name))
    else Success(Resolve(w, row.value.snapshot.spec.image) == Some(w.made[w.containers[name].id].image))
  }

  function Closing(id: string, verdict: Result<bool, string>): Write {
    match verdict
    case Success(onNewImage) =>
      if onNewImage then Close(id, "done", "Updated", "") else Close(id, "failed", "", INTERRUPTED)
    case Failure(reason) => Close(id, "failed", "", reason)
  }

  method OnSnapshotImage(d: Daemon, st: Store, name: Name) returns (r: Call<Result<bool, string>>, ghost row: Option<Row>)
    requires d.Valid()
    modifies d`world
    ensures d.Valid() && Rely(old(d.world), d.world, d.guarded) && (d.reliable ==> d.world == old(d.world))
    ensures match row
      case Some(found) => found.name == name && exists id :: id in st.rows && st.rows[id] == found
      case None => st.reliable ==> forall id :: id in st.rows ==> st.rows[id].name != name
    ensures r == Replied(Success(true)) && name in d.guarded ==> Settlement(d.world, row, name) == Success(true)
    ensures d.reliable ==> r == Replied(Settlement(d.world, row, name))
  {
    row := None;
    r := Crashed;
    var found := st.ManagedByName(name);
    if found.None? {
      return Replied(Failure("no longer managed: " + Render(name))), row;
    }
    var snap := st.rows[found.value].snapshot;
    row := Some(st.rows[found.value]);
    ghost var w0 := d.world;
    var inspect := d.InspectName(name);
    ghost var w1 := d.world;
    var inspected :- inspect;
    if inspected.Failure? {
      return Replied(Failure("container is gone: " + Render(name))), row;
    }
    var look := d.InspectImage(snap.spec.image);
    RelyTransitive(w0, w1, d.world, d.guarded);
    var image :- look;
    r := Replied(Success(image.Success? && image.value == inspected.value.image));
  }

  /** Closes a job from the state its container actually ended up in. */
  method SettleJob(d: Daemon, st: Store, t: JobTable, id: string, name: Name) returns (r: Call<()>, ghost verdict: Result<bool, string>)
    requires d.Valid()
    modifies d`world, t
    ensures d.Valid() && Rely(old(d.world), d.world, d.guarded) && (d.reliable ==> d.world == old(d.world))
    ensures r.Crashed? ==> t.jobs == old(t.jobs)
    ensures r.Replied? ==> Wrote(old(t.jobs), t.jobs, t.reliable, Closing(id, verdict))
    ensures r.Replied? && verdict == Success(true) && name in d.guarded ==>
      exists row :: Settlement(d.world, Some(row), name) == Success(true)
                    && row.name == name && exists k :: k in st.rows && st.rows[k] == row
    ensures d.reliable ==> r.Replied?
    ensures d.reliable && st.reliable ==>
      if exists k :: k in st.rows && st.rows[k].name == name
      then exists k :: k in st.rows && st.rows[k].name == name && verdict == Settlement(d.world, Some(st.rows[k]), name)
      else verdict.Failure?
  {
    verdict := Success(false);
    ghost var row;
    var judged;
    judged, row := OnSnapshotImage(d, st, name);
    if judged.Crashed? {
      return Crashed, verdict;
    }
    verdict := judged.value;
    match judged.value {
      case Success(true) => t.Finish(id, "done", "Updated", "");
      case Success(false) => t.Finish(id, "failed", "", INTERRUPTED);
      case Failure(reason) => t.Finish(id, "failed", "", reason);
    }
    r := Replied(());
  }

  /** Only job `id` may have changed, and only by being finished. */
  ghost predicate ClosedAtMost(jobs: map<string, Job>, jobs': map<string, Job>, id: string) {
    jobs'.Keys == jobs.Keys && forall k :: k in jobs && k != id ==> jobs'[k] == jobs[k]
  }

  method SettleNext(d: Daemon, st: Store, t: JobTable, id: string, ghost w0: World) returns (r: Call<()>)
    requires d.Valid() && WellFormed(w0) && Rely(w0, d.world, d.guarded) && id in t.jobs
    modifies d`world, t
    ensures d.Valid() && Rely(w0, d.world, d.guarded) && (d.reliable ==> d.world == old(d.world))
    ensures ClosedAtMost(old(t.jobs), t.jobs, id)
    ensures d.reliable ==> r.Replied?
    ensures d.reliable && t.reliable ==> t.jobs[id].done
  {
    ghost var before := d.world;
    ghost var verdict;
    r, verdict := SettleJob(d, st, t, id, t.jobs[id].name);
    RelyTransitive(w0, before, d.world, d.guarded);
  }

  /** Settles every active job but those a running helper is still finishing. */
  method ResumeJobs(d: Daemon, st: Store, t: JobTable, updaters: set<string>) returns (r: Call<()>)
    requires d.Valid()
    modifies d`world, t
    ensures d.Valid() && Rely(old(d.world), d.world, d.guarded) && (d.reliable ==> d.world == old(d.world))
    // Finished jobs, and those of running helpers, are left alone.
    ensures t.jobs.Keys == old(t.jobs).Keys
    ensures forall id :: id in t.jobs && (old(t.jobs)[id].done || id in updaters) ==> t.jobs[id] == old(t.jobs)[id]
    ensures d.reliable ==> r.Replied?
    // Nobody waits for a worker that is gone.
    ensures d.reliable && t.reliable ==> forall id :: id in t.jobs ==> t.jobs[id].done || id in updaters
  {
    var active := t.Active();
    if active.Failure? {
      return Replied(());
    }
    var todo := active.value - updaters;
    while todo != {}
      invariant d.Valid() && Rely(old(d.world), d.world, d.guarded) && (d.reliable ==> d.world == old(d.world))
      invariant t.jobs.Keys == old(t.jobs).Keys
      invariant forall id :: id in todo ==> id in t.jobs && id !in updaters && !old(t.jobs)[id].done
      invariant forall id :: id in t.jobs && (old(t.jobs)[id].done || id in updaters) ==> t.jobs[id] == old(t.jobs)[id]
      invariant d.reliable && t.reliable ==> forall id :: id in t.jobs ==> t.jobs[id].done || id in updaters || id in todo
    {
      var id :| id in todo;
      var settled := SettleNext(d, st, t, id, old(d.world));
      if settled.Crashed? {
        return Crashed;
      }
      todo := todo - {id};
    }
    r := Replied(());
  }

  // ---- Helpers ----

  predicate IsHelper(w: World, n: Name)
    requires WellFormed(w)
  {
    n in w.containers && IsUpdater(w.made[w.containers[n].id].spec.labels)
  }

  /** Only helper containers have gone. */
  ghost predicate Pruned(w: World, w': World, names: iset<Name>)
    requires WellFormed(w)
  {
    forall n :: n in names ==> SameAt(w, w', n) || (IsHelper(w, n) && !Taken(w', n))
  }

  ghost const EVERYONE: iset<Name> := iset n: Name | Parked(n) != n

  /** One helper container that no longer runs is removed. */
  method PruneOne(d: Daemon, id: Id, ghost w0: World) returns (r: Call<()>)
    requires d.Valid() && WellFormed(w0) && Lineage(w0, d.world, w0.next) && Pruned(w0, d.world, d.guarded)
    requires id in w0.made ==> IsUpdater(w0.made[id].spec.labels)
    modifies d`world, d`disturbed
    ensures d.Valid() && Lineage(w0, d.world, w0.next) && Pruned(w0, d.world, d.guarded)
    ensures d.reliable ==> r.Replied? && d.world == Dropped(old(d.world), id)
  {
    ghost var w := d.world;
    var removed := d.Remove(id);
    forall n | n in d.guarded ensures SameAt(w0, d.world, n) || (IsHelper(w0, n) && !Taken(d.world, n)) {
      assert SameAt(w0, w, n) || (IsHelper(w0, n) && !Taken(w, n));
    }
    r := if removed.Crashed? then Crashed else Replied(());
  }

  /** The helpers a listing shows not to be running. */
  function Finished(listing: map<Name, Summary>): set<Id> {
    set n | n in listing && IsUpdater(listing[n].labels) && !listing[n].running :: listing[n].id
  }

  /** Every helper that is not up has gone, or is about to. */
  ghost predicate Tidied(w: World, w': World, todo: set<Id>)
    requires WellFormed(w)
  {
    && Pruned(w, w', EVERYONE)
    && forall n :: Taken(w', n) && IsHelper(w, n) && !w.containers[n].up ==> w.containers[n].id in todo
  }

  lemma DroppingAt(w: World, id: Id, n: Name)
    requires WellFormed(w)
    ensures if Holds(w, n, id) then !Taken(Dropped(w, id), n) else SameAt(w, Dropped(w, id), n)
  {
  }

  lemma DroppingTidiesAt(w0: World, w: World, w': World, id: Id, todo: set<Id>, n: Name)
    requires WellFormed(w0) && Tidied(w0, w, todo)
    requires id in w0.made ==> IsUpdater(w0.made[id].spec.labels)
    requires if Holds(w, n, id) then !Taken(w', n) else SameAt(w, w', n)
    ensures SameAt(w0, w', n) || (IsHelper(w0, n) && !Taken(w', n))
  {
    assert n in EVERYONE;
  }

  lemma DroppingLeavesAt(w0: World, w: World, w': World, id: Id, todo: set<Id>, n: Name)
    requires WellFormed(w0) && Tidied(w0, w, todo)
    requires if Holds(w, n, id) then !Taken(w', n) else SameAt(w, w', n)
    ensures Taken(w', n) && IsHelper(w0, n) && !w0.containers[n].up ==> w0.containers[n].id in todo - {id}
  {
    assert n in EVERYONE;
    assert Taken(w, n) ==> SameAt(w0, w, n);
  }

  lemma DroppingTidies(w0: World, w: World, id: Id, todo: set<Id>)
    requires WellFormed(w0) && WellFormed(w) && Tidied(w0, w, todo)
    requires id in w0.made ==> IsUpdater(w0.made[id].spec.labels)
    ensures Tidied(w0, Dropped(w, id), todo - {id})
  {
    forall n
      ensures SameAt(w0, Dropped(w, id), n) || (IsHelper(w0, n) && !Taken(Dropped(w, id), n))
      ensures Taken(Dropped(w, id), n) && IsHelper(w0, n) && !w0.containers[n].up ==> w0.containers[n].id in todo - {id}
    {
      DroppingAt(w, id, n);
      DroppingTidiesAt(w0, w, Dropped(w, id), id, todo, n);
      DroppingLeavesAt(w0, w, Dropped(w, id), id, todo, n);
    }
  }

  /** Removes the containers of finished helpers. */
  method Prune(d: Daemon) returns (r: Call<()>)
    requires d.Valid()
    modifies d`world, d`disturbed
    ensures d.Valid() && Lineage(old(d.world), d.world, old(d.world).next)
    ensures Pruned(old(d.world), d.world, d.guarded)
    ensures d.reliable ==> r.Replied? && Tidied(old(d.world), d.world, {})
  {
    ghost var w0 := d.world;
    var listed := d.List();
    var listing :- listed;
    if listing.Failure? {
      return Replied(());
    }
    var todo := Finished(listing.value);
    assert d.reliable ==> Tidied(w0, d.world, todo);
    while todo != {}
      invariant d.Valid() && Lineage(w0, d.world, w0.next) && Pruned(w0, d.world, d.guarded)
      invariant forall id :: id in todo && id in w0.made ==> IsUpdater(w0.made[id].spec.labels)
      invariant d.reliable ==> Tidied(w0, d.world, todo)
    {
      var id :| id in todo;
      ghost var before := d.world;
      var removed := PruneOne(d, id, w0);
      if d.reliable {
        DroppingTidies(w0, before, id, todo);
      }
      var _ :- removed;
      todo := todo - {id};
    }
    r := Replied(());
  }

  // ---- Starting up ----

  /** What a start leaves of one name: a container waiting under the parked name is
      kept in the sense of a swap; a name with nothing parked is as it was. */
  ghost predicate Tended(w: World, w': World, n: Name, good: set<Id>, excused: set<Id>) {
    && (!Taken(w, Parked(n)) ==> SameAt(w, w', n) && !Taken(w', Parked(n)))
    && (Taken(w, Parked(n)) ==> Kept(w', n, w.containers[Parked(n)].id, good) && SameFaces(w, w', n) && UpUnless(w', n, excused))
  }

  /** Neither bearer of the name is a helper container. */
  ghost predicate NoHelpersAt(w: World, n: Name)
    requires WellFormed(w)
  {
    !IsHelper(w, n) && !IsHelper(w, Parked(n))
  }

  ghost predicate AllTended(w: World, w': World, guarded: iset<Name>, good: set<Id>, excused: set<Id>)
    requires WellFormed(w)
  {
    forall n :: Guards(guarded, n) && n.parkings == 0 && NoHelpersAt(w, n) ==> Tended(w, w', n, good, excused)
  }

  /** What a start, however it ends, leaves of the world it found. */
  ghost predicate TendedWorld(w: World, w': World, guarded: iset<Name>, good: set<Id>, excused: set<Id>)
    requires WellFormed(w)
  {
    && WellFormed(w') && Lineage(w, w', w.next) && NoNesting(w') && Undisturbed(guarded, w') && NoneParked(w, w')
    && AllTended(w, w', guarded, good, excused)
  }

  lemma StayingTends(w: World, w': World, guarded: iset<Name>, good: set<Id>, excused: set<Id>)
    requires WellFormed(w) && Stays(w, w', guarded) && NoNesting(w) && Undisturbed(guarded, w)
    ensures AllTended(w, w', guarded, good, excused) && NoNesting(w') && Undisturbed(guarded, w')
  {
    forall n | Guards(guarded, n) ensures Tended(w, w', n, good, excused) {
      assert SameAt(w, w', n) && SameAt(w, w', Parked(n));
    }
    forall k | k in w'.containers && k.parkings > 0 ensures k in w.containers {
      assert SameAt(w, w', k);
    }
    forall k | k in w'.containers ensures k.parkings <= 1 {
      if k.parkings > 0 {
        assert SameAt(w, w', k);
      }
    }
  }

  lemma UndisturbedTends(w: World, w': World, guarded: iset<Name>, good: set<Id>, excused: set<Id>)
    requires WellFormed(w) && Rely(w, w', guarded) && NoNesting(w) && Undisturbed(guarded, w)
    ensures TendedWorld(w, w', guarded, good, excused)
  {
    StayingTends(w, w', guarded, good, excused);
    StayingParksNone(w, w', guarded);
  }

  lemma StayingNests(w: World, w': World, guarded: iset<Name>)
    requires WellFormed(w) && Stays(w, w', guarded) && NoNesting(w) && Undisturbed(guarded, w)
    ensures NoNesting(w') && Undisturbed(guarded, w')
  {
    StayingTends(w, w', guarded, {}, {});
  }

  lemma SettlingTends(w: World, w': World, guarded: iset<Name>, good: set<Id>, excused: set<Id>)
    requires WellFormed(w) && AllKept(w, w', {}, good, excused) && OthersLeft(w, w', guarded)
    requires NoNesting(w) && Undisturbed(guarded, w)
    ensures AllTended(w, w', guarded, good, excused) && NoNesting(w') && Undisturbed(guarded, w')
  {
    forall n | Guards(guarded, n) && n.parkings == 0 ensures Tended(w, w', n, good, excused) {
      assert Original(Parked(n)) == n;
    }
  }

  lemma SettlingTendsWorld(w: World, w': World, guarded: iset<Name>, good: set<Id>, excused: set<Id>)
    requires WellFormed(w) && WellFormed(w') && Lineage(w, w', w.next) && NoNesting(w) && Undisturbed(guarded, w)
    requires AllKept(w, w', {}, good, excused) && OthersLeft(w, w', guarded)
    ensures TendedWorld(w, w', guarded, good, excused)
  {
    SettlingTends(w, w', guarded, good, excused);
    KeepingParksNone(w, w', guarded, good, excused);
  }

  lemma TakenFaces(w: World, w': World, n: Name)
    requires WellFormed(w) && WellFormed(w') && Lineage(w, w', w.next) && SameFaces(w, w', n) && NoHelpersAt(w, n)
    ensures NoHelpersAt(w', n)
  {
  }

  lemma PruningTends(w: World, w1: World, w2: World, guarded: iset<Name>, good: set<Id>, excused: set<Id>)
    requires WellFormed(w) && WellFormed(w1) && Lineage(w, w1, w.next) && Pruned(w1, w2, guarded)
    requires AllTended(w, w1, guarded, good, excused) && NoNesting(w1) && Undisturbed(guarded, w1)
    ensures AllTended(w, w2, guarded, good, excused) && NoNesting(w2) && Undisturbed(guarded, w2)
  {
    forall n | Guards(guarded, n) && n.parkings == 0 && NoHelpersAt(w, n) ensures Tended(w, w2, n, good, excused) {
      assert Tended(w, w1, n, good, excused);
      assert SameFaces(w, w1, n);
      TakenFaces(w, w1, n);
      assert SameAt(w1, w2, n) && SameAt(w1, w2, Parked(n));
    }
    forall k | k in w2.containers && k.parkings > 0 ensures k in w1.containers {
      assert SameAt(w1, w2, k) || !Taken(w2, k);
    }
  }

  lemma PruningTendsWorld(w: World, w1: World, w2: World, guarded: iset<Name>, good: set<Id>, excused: set<Id>)
    requires WellFormed(w) && WellFormed(w2) && TendedWorld(w, w1, guarded, good, excused)
    requires Lineage(w1, w2, w1.next) && Pruned(w1, w2, guarded)
    ensures TendedWorld(w, w2, guarded, good, excused)
  {
    PruningTends(w, w1, w2, guarded, good, excused);
    forall id | IsParked(w2, id) ensures IsParked(w, id) {
      assert Taken(w2, w2.names[id]) && IsParked(w1, id);
    }
  }

  lemma SameHelpers(w: World, w1: World, n: Name)
    requires WellFormed(w) && WellFormed(w1) && Lineage(w, w1, w.next)
    requires SameAt(w, w1, n) && SameAt(w, w1, Parked(n)) && NoHelpersAt(w, n)
    ensures NoHelpersAt(w1, n)
  {
  }

  lemma TendedAfter(w: World, w1: World, w2: World, n: Name, good: set<Id>, excused: set<Id>)
    requires SameAt(w, w1, n) && SameAt(w, w1, Parked(n)) && Tended(w1, w2, n, good, excused)
    ensures Tended(w, w2, n, good, excused)
  {
  }

  lemma TendedBefore(w: World, w1: World, w2: World, n: Name, good: set<Id>, excused: set<Id>)
    requires Tended(w, w1, n, good, excused) && SameAt(w1, w2, n) && SameAt(w1, w2, Parked(n))
    ensures Tended(w, w2, n, good, excused)
  {
  }

  lemma TendingFrames(w: World, w1: World, w2: World, w3: World, guarded: iset<Name>, good: set<Id>, excused: set<Id>)
    requires WellFormed(w) && WellFormed(w2) && Rely(w, w1, guarded) && Rely(w2, w3, guarded)
    requires TendedWorld(w1, w2, guarded, good, excused) && (Undisturbed(guarded, w) || Undisturbed(guarded, w1))
    ensures TendedWorld(w, w3, guarded, good, excused)
  {
    forall n | Guards(guarded, n) && n.parkings == 0 && NoHelpersAt(w, n) ensures Tended(w, w3, n, good, excused) {
      assert SameAt(w, w1, n) && SameAt(w, w1, Parked(n));
      assert SameAt(w2, w3, n) && SameAt(w2, w3, Parked(n));
      SameHelpers(w, w1, n);
      TendedAfter(w, w1, w2, n, good, excused);
      TendedBefore(w, w2, w3, n, good, excused);
    }
    StayingTends(w2, w3, guarded, good, excused);
    StayingParksNone(w, w1, guarded);
    StayingParksNone(w2, w3, guarded);
  }

  /** The jobs whose helper a listing shows running. */
  function RunningUpdaters(listing: map<Name, Summary>): set<string> {
    set n | n in listing && IsUpdater(listing[n].labels) && listing[n].running :: LabelOf(listing[n].labels, VeeryJob)
  }

  /** Settles what is parked and clears finished helpers away, no helper running. */
  method SettleParked(d: Daemon, self: Option<Id>) returns (r: Call<()>, ghost steps: seq<Step>, ghost mid: World)
    requires d.Valid() && NoNesting(d.world) && Undisturbed(d.guarded, d.world)
    modifies d`world, d`now, d`verified, d`disturbed, d`unstarted
    ensures d.Valid() && old(d.verified) <= d.verified && Marked(old(d.world), old(d.unstarted), d.unstarted)
    ensures d.reliable ==> d.unstarted == old(d.unstarted)
    ensures TendedWorld(old(d.world), d.world, d.guarded, d.verified + SelfSet(self), d.unstarted + SelfSet(self))
    ensures d.reliable ==> r.Replied? && Logged(old(d.world), mid, self, steps, {}) && WellFormed(mid) && Tidied(mid, d.world, {})
  {
    ghost var w0 := d.world;
    var settled;
    settled, steps := ReconcileParked(d, self);
    mid := d.world;
    SettlingTendsWorld(w0, mid, d.guarded, d.verified + SelfSet(self), d.unstarted + SelfSet(self));
    if settled.Crashed? {
      return Crashed, steps, mid;
    }
    r := Prune(d);
    PruningTendsWorld(w0, mid, d.world, d.guarded, d.verified + SelfSet(self), d.unstarted + SelfSet(self));
  }

  /** Recover: interrupted swaps are settled unless a helper is at work, finished
      helpers cleared away, and the jobs brought to their end. `helping` says
      whether a helper was `seen` running; `mid` is the state before clearing away. */
  method Recover(d: Daemon, st: Store, t: JobTable, self: Option<Id>)
    returns (r: Call<()>, ghost helping: bool, ghost seen: map<Name, Summary>, ghost steps: seq<Step>, ghost mid: World)
    requires d.Valid() && NoNesting(d.world) && Undisturbed(d.guarded, d.world)
    modifies d`world, d`now, d`verified, d`disturbed, d`unstarted, t
    ensures d.Valid() && old(d.verified) <= d.verified && Marked(old(d.world), old(d.unstarted), d.unstarted)
    ensures d.reliable ==> d.unstarted == old(d.unstarted)
    ensures TendedWorld(old(d.world), d.world, d.guarded, d.verified + SelfSet(self), d.unstarted + SelfSet(self))
    // A running helper's containers are left to it.
    ensures helping ==> d.disturbed == old(d.disturbed) && Rely(old(d.world), d.world, d.guarded)
    ensures d.reliable && !helping ==>
      && r.Replied? && Logged(old(d.world), mid, self, steps, {}) && WellFormed(mid) && Tidied(mid, d.world, {})
    ensures d.reliable && !helping && t.reliable ==> forall id :: id in t.jobs ==> t.jobs[id].done
    ensures d.reliable ==> Listed(seen, old(d.world)) && (helping <==> RunningUpdaters(seen) != {})
  {
    helping, seen, steps, mid := true, map[], [], d.world;
    r := Crashed;
    ghost var w0 := d.world;
    var listed := d.List();
    ghost var w1 := d.world;
    if listed.Crashed? || listed.value.Failure? {
      UndisturbedTends(w0, w1, d.guarded, d.verified + SelfSet(self), d.unstarted + SelfSet(self));
      r := if listed.Crashed? then Crashed else Replied(());
      return;
    }
    seen := listed.value.value;
    r, helping, steps, mid := RecoverListed(d, st, t, self, listed.value.value, w0);
  }

  /** What follows once the containers have been listed. */
  method RecoverListed(d: Daemon, st: Store, t: JobTable, self: Option<Id>, listing: map<Name, Summary>, ghost w0: World)
    returns (r: Call<()>, ghost helping: bool, ghost steps: seq<Step>, ghost mid: World)
    requires d.Valid() && WellFormed(w0) && Rely(w0, d.world, d.guarded) && (d.reliable ==> d.world == w0)
    requires NoNesting(w0) && Undisturbed(d.guarded, w0)
    modifies d`world, d`now, d`verified, d`disturbed, d`unstarted, t
    ensures d.Valid() && old(d.verified) <= d.verified && Marked(w0, old(d.unstarted), d.unstarted)
    ensures d.reliable ==> d.unstarted == old(d.unstarted)
    ensures TendedWorld(w0, d.world, d.guarded, d.verified + SelfSet(self), d.unstarted + SelfSet(self))
    ensures helping <==> RunningUpdaters(listing) != {}
    ensures helping ==> d.disturbed == old(d.disturbed) && Rely(w0, d.world, d.guarded)
    ensures d.reliable && !helping ==>
      && r.Replied? && Logged(w0, mid, self, steps, {}) && WellFormed(mid) && Tidied(mid, d.world, {})
    ensures d.reliable && !helping && t.reliable ==> forall id :: id in t.jobs ==> t.jobs[id].done
  {
    steps, mid := [], d.world;
    StayingNests(w0, d.world, d.guarded);
    var updaters := RunningUpdaters(listing);
    helping := updaters != {};
    if updaters == {} {
      r, steps, mid := RecoverAlone(d, st, t, self, w0);
    } else {
      r := RecoverBeside(d, st, t, updaters, w0, d.verified + SelfSet(self), d.unstarted + SelfSet(self));
    }
  }

  /** The half of Recover for when a helper is at work. */
  method RecoverBeside(d: Daemon, st: Store, t: JobTable, updaters: set<string>,
                       ghost w0: World, ghost good: set<Id>, ghost excused: set<Id>) returns (r: Call<()>)
    requires d.Valid() && WellFormed(w0) && Rely(w0, d.world, d.guarded) && NoNesting(w0) && Undisturbed(d.guarded, w0)
    modifies d`world, t
    ensures d.Valid() && Rely(w0, d.world, d.guarded) && (d.reliable ==> d.world == old(d.world))
    ensures TendedWorld(w0, d.world, d.guarded, good, excused)
  {
    ghost var w1 := d.world;
    r := ResumeJobs(d, st, t, updaters);
    RelyTransitive(w0, w1, d.world, d.guarded);
    UndisturbedTends(w0, d.world, d.guarded, good, excused);
  }

  /** The half of Recover for when no helper is at work. */
  method RecoverAlone(d: Daemon, st: Store, t: JobTable, self: Option<Id>, ghost w0: World)
    returns (r: Call<()>, ghost steps: seq<Step>, ghost mid: World)
    requires d.Valid() && NoNesting(d.world) && Undisturbed(d.guarded, d.world)
    requires WellFormed(w0) && Rely(w0, d.world, d.guarded) && (d.reliable ==> d.world == w0)
    modifies d`world, d`now, d`verified, d`disturbed, d`unstarted, t
    ensures d.Valid() && old(d.verified) <= d.verified && Marked(w0, old(d.unstarted), d.unstarted)
    ensures d.reliable ==> d.unstarted == old(d.unstarted)
    ensures TendedWorld(w0, d.world, d.guarded, d.verified + SelfSet(self), d.unstarted + SelfSet(self))
    ensures d.reliable ==>
      && r.Replied? && Logged(w0, mid, self, steps, {}) && WellFormed(mid) && Tidied(mid, d.world, {})
    ensures d.reliable && t.reliable ==> forall id :: id in t.jobs ==> t.jobs[id].done
  {
    ghost var w1 := d.world;
    var reconciled;
    reconciled, steps, mid := SettleParked(d, self);
    ghost var w2 := d.world;
    StayingParksNone(w0, w1, d.guarded);
    TendingFrames(w0, w1, w2, w2, d.guarded, d.verified + SelfSet(self), d.unstarted + SelfSet(self));
    if reconciled.Crashed? {
      return Crashed, steps, mid;
    }
    r := ResumeJobs(d, st, t, {});
    TendingFrames(w0, w1, w2, d.world, d.guarded, d.verified + SelfSet(self), d.unstarted + SelfSet(self));
  }
}
