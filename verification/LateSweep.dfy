/** A sweep and an update of one container at a time. The container's lock makes each
    of the two a whole to the other, but the sweep works from a listing and from rows
    it read before it had the lock. */
module LateSweep {
  import opened Wrappers
  import opened Looks
  import opened Docker
  import opened Snapshots
  import opened Records
  import opened Update
  import opened Sweep

  lemma RewritingKeepsNames(rows: map<string, Row>, k: string, snapshot: Snapshot, live: Id)
    requires k in rows && OnePerName(rows)
    ensures OnePerName(Rewritten(rows, k, snapshot, live))
  {
  }

  /** A sweep reaches a container it listed as `live` after the row has come to tell
      of another. It puts the row back to `live` if and only if that container is
      still there and looks settled. */
  method RerecordLate(d: Daemon, st: Store, stale: Row, k: string, live: Id) returns (r: Call<bool>, ghost look: Option<Option<RunState>>)
    requires d.reliable && st.reliable && d.Valid() && Faithful(st.rows, d.world) && OnePerName(st.rows)
    requires k in st.rows && st.rows[k].name == stale.name && st.rows[k].container != Some(live) && live < d.world.next
    modifies d`world, st`rows
    ensures d.Valid() && d.world == old(d.world) && r.Replied? && k in st.rows
    ensures st.rows[k].container == Some(live) <==> Exists(d.world, live) && !(look.Some? && !IsSettled(look.value))
    ensures st.rows[k].container != Some(live) ==> st.rows == old(st.rows)
  {
    r, look := Rerecord(d, st, stale, live, {});
    if st.rows != old(st.rows) {
      ghost var j, snapshot :| j in old(st.rows) && old(st.rows)[j].name == stale.name && st.rows == Rewritten(old(st.rows), j, snapshot, live);
      assert j == k;
    }
  }

  /** A sweep lists a container, an update of it runs, and the sweep goes on. If the
      update took and the old container is gone, the row stays as the update left it;
      an update that failed left it as it was. */
  method SweepAroundSwap(d: Daemon, st: Store, rowId: string, snap: Snapshot, ref: Ref, was: Inspection)
    returns (r: Call<bool>, ghost swapped: Call<Result<Id, Fault>>, ghost rows: map<string, Row>, ghost w: World)
    requires d.Valid() && Guards(d.guarded, snap.name) && Holds(d.world, snap.name, was.id) && Faithful(st.rows, d.world)
    requires rowId in st.rows && st.rows[rowId].name == snap.name && OnePerName(st.rows)
    modifies d`world, d`now, d`verified, d`disturbed, d`unstarted, st`rows
    ensures d.Valid() && Faithful(st.rows, d.world)
    // `rows` and `w` are what the update left.
    ensures swapped.Replied? && swapped.value.Failure? ==> rows == old(st.rows)
    ensures Succeeded(swapped) && !Taken(w, Parked(snap.name)) ==> st.rows == rows
    ensures d.reliable && st.reliable && Succeeded(swapped) ==>
      rowId in st.rows && st.rows[rowId].container == Some(swapped.value.value)
  {
    var stale := st.rows[rowId];
    swapped, rows, w := Crashed, st.rows, d.world;
    ghost var w0 := d.world;
    var listed := d.List();
    FaithfulUnderInterference(st.rows, w0, d.world);
    if listed.Crashed? || listed.value.Failure? {
      return if listed.Crashed? then Crashed else Replied(false), swapped, rows, w;
    }
    assert SameAt(w0, d.world, snap.name);
    var live := listed.value.value[snap.name].id;
    var done := Swap(d, st, rowId, snap.name, snap, ref, was);
    swapped, rows, w := done, st.rows, d.world;
    if done.Crashed? {
      return Crashed, swapped, rows, w;
    }
    r := Replied(false);
    if stale.container != Some(live) {
      ghost var look;
      r, look := Rerecord(d, st, stale, live, {});
    }
  }

  /** Such a state: an update has replaced container 0 by 1 but could not remove it. A
      sweep that listed 0 before puts the row back to it, as it stopped in good order. */
  lemma AParkedContainerIsRecorded() returns (w: World, rows: map<string, Row>, state: RunState)
    ensures
      var name := Name("web", 0);
      && WellFormed(w) && Faithful(rows, w) && OnePerName(rows) && Holds(w, name, 1) && Holds(w, Parked(name), 0)
      && "web" in rows && rows["web"].name == name && rows["web"].container == Some(1)
      && Exists(w, 0) && !IsUp(w, 0) && !state.running && IsSettled(Some(state))
  {
    var spec := Bare(Digest(7));
    var name := Name("web", 0);
    w := World(map[name := Container(1, true), Parked(name) := Container(0, false)], map[1 := name, 0 := Parked(name)],
               map[0 := Make(7, spec), 1 := Make(7, spec)], {7}, map[], map[], 2);
    rows := map["web" := Row("web", name, Snapshot(name, "", "", spec), Some(1), false)];
    state := RunState(false, false, false, 0, NoHealth);
  }
}
