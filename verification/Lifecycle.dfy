/** internal/docker/lifecycle.go, Adopt and BringUpStack: the other writer of
    records, and the other creator of containers. */
module Lifecycle {
  import opened Wrappers
  import opened Docker
  import opened Snapshots
  import opened Records
  import opened SelfUpdate
  import opened Sweep

  /** Rows after adopting `stack`: a row may have been pointed at a listed service of
      the stack, keeping its name and auto-update setting, or added for one. */
  ghost predicate TakenOver(rows: map<string, Row>, rows': map<string, Row>, hex: Id -> string, listing: map<Name, Summary>, stack: string) {
    && (forall k :: k in rows ==> k in rows' && (rows'[k] == rows[k] || OfStack(rows'[k], hex, listing, stack)))
    && (forall k :: k in rows ==> rows'[k].name == rows[k].name && rows'[k].autoUpdate == rows[k].autoUpdate)
    && (forall k :: k in rows' && k !in rows ==> OfStack(rows'[k], hex, listing, stack) && !rows'[k].autoUpdate)
  }

  ghost predicate OfStack(row: Row, hex: Id -> string, listing: map<Name, Summary>, stack: string) {
    && row.name in listing && row.stack == stack && row.container == Some(listing[row.name].id)
    && IsService(hex, row.name, listing[row.name]) && StackOf(row.name, listing[row.name].labels) == stack
  }

  /** Records one listed container as managed. */
  method AdoptOne(d: Daemon, st: Store, name: Name, c: Summary, stack: string) returns (r: Call<bool>, ghost key: string)
    requires d.Valid() && Faithful(st.rows, d.world)
    modifies d`world, st`rows
    ensures d.Valid() && Rely(old(d.world), d.world, d.guarded) && (d.reliable ==> d.world == old(d.world))
    ensures Faithful(st.rows, d.world)
    ensures r != Replied(true) ==> st.rows == old(st.rows)
    ensures r == Replied(true) ==> exists snapshot ::
      st.rows == Added(old(st.rows), key, Row(stack, name, snapshot, Some(c.id), false))
    ensures r == Replied(true) && key in old(st.rows) ==> old(st.rows)[key].name == name
    ensures st.reliable && r == Replied(true) && key !in old(st.rows) ==> !Managed(old(st.rows), name)
    ensures d.reliable && st.reliable && Exists(d.world, c.id) ==> r == Replied(true)
    ensures d.reliable ==> r.Replied?
  {
    key := "";
    r := Crashed;
    ghost var w0 := d.world;
    var looked := d.Inspect(c.id);
    FaithfulUnderInterference(st.rows, w0, d.world);
    var inspected :- looked;
    if inspected.Failure? {
      return Replied(false), key;
    }
    var i := inspected.value;
    var id := GenId(st.rows);
    var existing := st.ManagedByName(name);
    if existing.Some? {
      id := existing.value;
    }
    key := id;
    var row := Row(stack, name, SnapshotOf(i), Some(i.id), false);
    AddingIsFaithful(st.rows, d.world, id, row, i);
    var stored := st.AddManaged(id, row);
    r := Replied(stored);
  }

  lemma AddingTakesOver(rows0: map<string, Row>, rows: map<string, Row>, rows': map<string, Row>, hex: Id -> string,
                        listing: map<Name, Summary>, stack: string, key: string, row: Row)
    requires TakenOver(rows0, rows, hex, listing, stack) && rows' == Added(rows, key, row)
    requires key in rows ==> rows[key].name == row.name
    requires OfStack(row, hex, listing, stack) && !row.autoUpdate
    ensures TakenOver(rows0, rows', hex, listing, stack)
  {
  }

  /** The services of a stack in a listing. */
  function Services(hex: Id -> string, listing: map<Name, Summary>, stack: string): set<Name> {
    set n | n in listing && InStack(hex, listing, n, stack)
  }

  method AdoptNext(d: Daemon, st: Store, hex: Id -> string, listing: map<Name, Summary>, stack: string, name: Name, ghost rows0: map<string, Row>)
    returns (r: Call<bool>)
    requires d.Valid() && Faithful(st.rows, d.world) && TakenOver(rows0, st.rows, hex, listing, stack)
    requires name in Services(hex, listing, stack)
    modifies d`world, st`rows
    ensures d.Valid() && Rely(old(d.world), d.world, d.guarded) && (d.reliable ==> d.world == old(d.world))
    ensures Faithful(st.rows, d.world) && TakenOver(rows0, st.rows, hex, listing, stack)
    ensures st.reliable && OnePerName(old(st.rows)) ==> OnePerName(st.rows)
    ensures r == Replied(true) ==> Managed(st.rows, name)
    ensures forall n :: Managed(old(st.rows), n) ==> Managed(st.rows, n)
    ensures d.reliable && st.reliable && Exists(d.world, listing[name].id) ==> r == Replied(true)
  {
    ghost var rows, key := st.rows, "";
    r, key := AdoptOne(d, st, name, listing[name], stack);
    if r == Replied(true) {
      ghost var snapshot :| st.rows == Added(rows, key, Row(stack, name, snapshot, Some(listing[name].id), false));
      ghost var row := Row(stack, name, snapshot, Some(listing[name].id), false);
      AddingTakesOver(rows0, rows, st.rows, hex, listing, stack, key, row);
      ManagedAfterAdding(rows, key, row);
    }
  }

  method AdoptAll(d: Daemon, st: Store, hex: Id -> string, listing: map<Name, Summary>, stack: string) returns (r: Call<bool>)
    requires d.Valid() && Faithful(st.rows, d.world)
    requires d.reliable ==> Listed(listing, d.world)
    modifies d`world, st`rows
    ensures d.Valid() && Rely(old(d.world), d.world, d.guarded) && (d.reliable ==> d.world == old(d.world))
    ensures Faithful(st.rows, d.world) && TakenOver(old(st.rows), st.rows, hex, listing, stack)
    ensures st.reliable && OnePerName(old(st.rows)) ==> OnePerName(st.rows)
    ensures r == Replied(true) ==> Services(hex, listing, stack) != {} && forall n :: n in Services(hex, listing, stack) ==> Managed(st.rows, n)
    ensures d.reliable && st.reliable ==> r == Replied(Services(hex, listing, stack) != {})
  {
    ghost var w0, rows0 := d.world, st.rows;
    var todo := Services(hex, listing, stack);
    ghost var services := todo;
    r := Replied(todo != {});
    while todo != {}
      invariant d.Valid() && Rely(w0, d.world, d.guarded) && (d.reliable ==> d.world == w0)
      invariant Faithful(st.rows, d.world) && TakenOver(rows0, st.rows, hex, listing, stack)
      invariant todo <= services
      invariant st.reliable && OnePerName(rows0) ==> OnePerName(st.rows)
      invariant forall n :: n in services - todo ==> Managed(st.rows, n)
    {
      var name :| name in todo;
      ghost var before := d.world;
      var adopted := AdoptNext(d, st, hex, listing, stack, name, rows0);
      RelyTransitive(w0, before, d.world, d.guarded);
      if adopted != Replied(true) {
        return adopted;
      }
      todo := todo - {name};
    }
  }

  /** Adopt: takes every service of a stack under management. Succeeds only if there
      was one. */
  method Adopt(d: Daemon, st: Store, hex: Id -> string, stack: string) returns (r: Call<bool>, ghost listing: map<Name, Summary>)
    requires d.Valid() && Faithful(st.rows, d.world)
    modifies d`world, st
    ensures d.Valid() && Rely(old(d.world), d.world, d.guarded) && (d.reliable ==> d.world == old(d.world))
    ensures Faithful(st.rows, d.world) && TakenOver(old(st.rows), st.rows, hex, listing, stack)
    ensures old(st.stacks) <= st.stacks <= old(st.stacks) + {stack}
    ensures st.reliable && OnePerName(old(st.rows)) ==> OnePerName(st.rows)
    ensures r == Replied(true) ==>
      stack in st.stacks && Services(hex, listing, stack) != {} && forall n :: n in Services(hex, listing, stack) ==> Managed(st.rows, n)
    ensures d.reliable && st.reliable ==> Listed(listing, d.world) && r == Replied(Services(hex, listing, stack) != {})
  {
    listing := map[];
    r := Crashed;
    ghost var w0 := d.world;
    var listed := d.List();
    ghost var w1 := d.world;
    FaithfulUnderInterference(st.rows, w0, w1);
    var all :- listed;
    if all.Failure? {
      return Replied(false), listing;
    }
    listing := all.value;
    var up := st.Reach();
    if !up {
      return Replied(false), listing;
    }
    st.stacks := st.stacks + {stack};
    r := AdoptAll(d, st, hex, all.value, stack);
    RelyTransitive(w0, w1, d.world, d.guarded);
  }

  predicate InStack(hex: Id -> string, listing: map<Name, Summary>, n: Name, stack: string)
    requires n in listing
  {
    IsService(hex, n, listing[n]) && StackOf(n, listing[n].labels) == stack
  }

  lemma ManagedAfterAdding(rows: map<string, Row>, key: string, row: Row)
    requires key in rows ==> rows[key].name == row.name
    ensures Managed(Added(rows, key, row), row.name)
    ensures forall n :: Managed(rows, n) ==> Managed(Added(rows, key, row), n)
    ensures OnePerName(rows) && (key in rows || !Managed(rows, row.name)) ==> OnePerName(Added(rows, key, row))
  {
    var rows' := Added(rows, key, row);
    assert rows'[key].name == row.name;
    forall n | Managed(rows, n) ensures Managed(rows', n) {
      var k :| k in rows && rows[k].name == n;
      assert k in rows' && rows'[k].name == n;
    }
  }

  // ---- Bringing a stack up ----

  /** A row tells of a container made from its snapshot, short perhaps of networks. */
  ghost predicate NearlyTruthful(row: Row, w: World) {
    row.container.Some? ==>
      row.container.value in w.made && PartOf(Core(w.made[row.container.value].spec), Core(row.snapshot.spec))
  }

  ghost predicate NearlyFaithful(rows: map<string, Row>, w: World) {
    forall k :: k in rows ==> NearlyTruthful(rows[k], w)
  }

  /** A row brought up speaks the truth exactly when its container joined every network. */
  lemma TruthNeedsEveryNetwork(row: Row, w: World)
    requires NearlyTruthful(row, w) && row.container.Some?
    ensures Truthful(row, w) <==> row.snapshot.spec.networks.Keys <= w.made[row.container.value].spec.networks.Keys
  {
    assert Core(row.snapshot.spec).networks.Keys == row.snapshot.spec.networks.Keys;
    assert Core(w.made[row.container.value].spec).networks.Keys == w.made[row.container.value].spec.networks.Keys;
    CarriedOverWhole(Core(w.made[row.container.value].spec), Core(row.snapshot.spec));
  }

  /** Such a row: the container it was brought up as could not join a network. */
  lemma AMissedNetworkMakesALie() returns (row: Row, w: World)
    ensures WellFormed(w) && Holds(w, row.name, 0) && row.container == Some(0)
    ensures NearlyTruthful(row, w) && !Truthful(row, w)
  {
    var name := Name("web", 0);
    var wanted := Bare(Digest(7)).(networks := map["lan" := Endpoint("", "")]);
    row := Row("web", name, Snapshot(name, "", "", wanted), Some(0), false);
    w := World(map[name := Container(0, true)], map[0 := name], map[0 := Make(7, Bare(Digest(7)))], {7}, map[], map[], 1);
    assert "lan" in row.snapshot.spec.networks.Keys && "lan" !in w.made[0].spec.networks.Keys;
    TruthNeedsEveryNetwork(row, w);
  }

  lemma NearlyFaithfulUnderInterference(rows: map<string, Row>, w: World, w': World)
    requires WellFormed(w) && NearlyFaithful(rows, w) && Lineage(w, w', w.next)
    ensures NearlyFaithful(rows, w')
  {
    forall k | k in rows ensures NearlyTruthful(rows[k], w') {
      assert NearlyTruthful(rows[k], w);
    }
  }

  lemma CoreOfPart(spec: Spec, wanted: Spec)
    requires PartOf(spec, Core(wanted))
    ensures PartOf(Core(spec), Core(wanted)) && Core(spec) == spec
  {
    assert Core(spec).networks == spec.networks;
  }

  lemma RecreatedIsNearlyFaithful(rows: map<string, Row>, w: World, id: string, newer: Id)
    requires NearlyFaithful(rows, w) && id in rows && MadeFrom(w, newer, Wanted(rows[id].snapshot, None))
    ensures NearlyFaithful(Rewritten(rows, id, rows[id].snapshot, newer), w)
  {
    var snap := rows[id].snapshot;
    assert Wanted(snap, None) == Core(snap.spec);
    CoreOfPart(w.made[newer].spec, snap.spec);
    var rows' := Rewritten(rows, id, snap, newer);
    forall k | k in rows' ensures NearlyTruthful(rows'[k], w) {
      if k != id {
        assert NearlyTruthful(rows[k], w);
      }
    }
  }

  lemma RecreatedIsFaithful(rows: map<string, Row>, w: World, id: string, newer: Id)
    requires Faithful(rows, w) && id in rows && newer in w.made && w.made[newer].spec == Core(rows[id].snapshot.spec)
    ensures Faithful(Rewritten(rows, id, rows[id].snapshot, newer), w)
  {
    var rows' := Rewritten(rows, id, rows[id].snapshot, newer);
    forall k | k in rows' ensures Truthful(rows'[k], w) {
      if k != id {
        assert Truthful(rows[k], w);
      } else {
        assert Core(w.made[newer].spec).networks == w.made[newer].spec.networks;
      }
    }
  }

  /** Brings one container up: creates it anew from its snapshot if it is missing,
      starts it if it is down. */
  method BringUpOne(d: Daemon, st: Store, id: string) returns (r: Call<bool>)
    requires d.Valid() && id in st.rows && st.rows[id].name in d.guarded && st.rows[id].snapshot.name == st.rows[id].name
    requires NearlyFaithful(st.rows, d.world)
    modifies d`world, st`rows
    ensures d.Valid() && Lineage(old(d.world), d.world, old(d.world).next) && NearlyFaithful(st.rows, d.world)
    ensures st.rows == old(st.rows) || exists newer :: st.rows == Rewritten(old(st.rows), id, old(st.rows)[id].snapshot, newer)
    ensures forall n :: n in d.guarded && n != old(st.rows)[id].name ==> SameAt(old(d.world), d.world, n)
    ensures r == Replied(true) ==> Taken(d.world, old(st.rows)[id].name) && d.world.containers[old(st.rows)[id].name].up
    ensures Taken(old(d.world), old(st.rows)[id].name) ==>
      st.rows == old(st.rows) && Taken(d.world, old(st.rows)[id].name)
      && d.world.containers[old(st.rows)[id].name].id == old(d.world).containers[old(st.rows)[id].name].id
    ensures d.reliable && Faithful(old(st.rows), old(d.world)) ==> Faithful(st.rows, d.world)
  {
    var row := st.rows[id];
    ghost var w0 := d.world;
    var looked := d.InspectName(row.name);
    ghost var w1 := d.world;
    assert SameAt(w0, w1, row.name);
    NearlyFaithfulUnderInterference(st.rows, w0, w1);
    var inspected :- looked;
    if inspected.Success? {
      if inspected.value.state.None? {
        return Crashed;  // a nil dereference
      }
      if inspected.value.state.value.running {
        return Replied(true);
      }
      var start := d.Start(inspected.value.id);
      NearlyFaithfulUnderInterference(st.rows, w1, d.world);
      if d.reliable && Faithful(st.rows, w0) {
        FaithfulUnderInterference(st.rows, w0, d.world);
      }
      var started :- start;
      return Replied(started.Success?);
    }
    r := BringBack(d, st, id);
  }

  /** Creates a missing container anew from its snapshot. */
  method BringBack(d: Daemon, st: Store, id: string) returns (r: Call<bool>)
    requires d.Valid() && id in st.rows && st.rows[id].name in d.guarded && st.rows[id].snapshot.name == st.rows[id].name
    requires NearlyFaithful(st.rows, d.world)
    modifies d`world, st`rows
    ensures d.Valid() && Lineage(old(d.world), d.world, old(d.world).next) && NearlyFaithful(st.rows, d.world)
    ensures st.rows == old(st.rows) || exists newer :: st.rows == Rewritten(old(st.rows), id, old(st.rows)[id].snapshot, newer)
    ensures forall n :: n in d.guarded && n != old(st.rows)[id].name ==> SameAt(old(d.world), d.world, n)
    ensures r == Replied(true) ==> Taken(d.world, old(st.rows)[id].name) && d.world.containers[old(st.rows)[id].name].up
    ensures Taken(old(d.world), old(st.rows)[id].name) ==>
      st.rows == old(st.rows) && SameAt(old(d.world), d.world, old(st.rows)[id].name)
    ensures d.reliable && Faithful(old(st.rows), old(d.world)) ==> Faithful(st.rows, d.world)
  {
    var row := st.rows[id];
    ghost var w0, rows := d.world, st.rows;
    var rebuild := Recreate(d, row.snapshot, None);
    NearlyFaithfulUnderInterference(rows, w0, d.world);
    if d.reliable && Faithful(rows, w0) {
      FaithfulUnderInterference(rows, w0, d.world);
    }
    var rebuilt :- rebuild;
    if !rebuilt.ok {
      return Replied(false);
    }
    assert !Taken(w0, row.name);
    RecreatedIsNearlyFaithful(rows, d.world, id, rebuilt.id.value);
    var _ := st.UpdateSnapshot(id, row.snapshot, rebuilt.id.value);
    if d.reliable && Faithful(rows, w0) {
      RecreatedIsFaithful(rows, d.world, id, rebuilt.id.value);
    }
    r := Replied(true);
  }

  /** The rows differ at most in which container they tell of. */
  ghost predicate SameButContainers(rows: map<string, Row>, rows': map<string, Row>) {
    rows'.Keys == rows.Keys && forall k :: k in rows ==> rows'[k] == rows[k].(container := rows'[k].container)
  }

  ghost predicate AllUp(w: World, rows: map<string, Row>, keys: set<string>) {
    forall k :: k in keys && k in rows ==> Taken(w, rows[k].name) && w.containers[rows[k].name].up
  }

  /** Guarded containers that bear none of these rows' names are as they were. */
  ghost predicate OthersAsWere(w: World, w': World, guarded: iset<Name>, rows: map<string, Row>, keys: set<string>) {
    forall n :: n in guarded && (forall k :: k in keys && k in rows ==> rows[k].name != n) ==> SameAt(w, w', n)
  }

  /** One more of the stack's containers is up. */
  method BringUpNext(d: Daemon, st: Store, id: string, ghost w0: World, ghost rows0: map<string, Row>, ghost keys: set<string>, ghost todo: set<string>)
    returns (r: Call<bool>)
    requires d.Valid() && WellFormed(w0) && Lineage(w0, d.world, w0.next) && NearlyFaithful(st.rows, d.world)
    requires SameButContainers(rows0, st.rows) && id in todo && todo <= keys <= rows0.Keys
    requires forall k :: k in keys ==> rows0[k].name in d.guarded && rows0[k].snapshot.name == rows0[k].name
    requires OthersAsWere(w0, d.world, d.guarded, rows0, keys) && AllUp(d.world, rows0, keys - todo)
    modifies d`world, st`rows
    ensures d.Valid() && Lineage(w0, d.world, w0.next) && NearlyFaithful(st.rows, d.world)
    ensures SameButContainers(rows0, st.rows) && OthersAsWere(w0, d.world, d.guarded, rows0, keys)
    ensures d.reliable && Faithful(old(st.rows), old(d.world)) ==> Faithful(st.rows, d.world)
    ensures r == Replied(true) ==> AllUp(d.world, rows0, keys - (todo - {id}))
  {
    ghost var w := d.world;
    r := BringUpOne(d, st, id);
    forall n | n in d.guarded && (forall k :: k in keys && k in rows0 ==> rows0[k].name != n) ensures SameAt(w0, d.world, n) {
      assert SameAt(w, d.world, n);
    }
    if r == Replied(true) {
      forall k | k in keys - todo && rows0[k].name != rows0[id].name
        ensures Taken(d.world, rows0[k].name) && d.world.containers[rows0[k].name].up
      {
        assert SameAt(w, d.world, rows0[k].name);
      }
    }
  }

  function Members(rows: map<string, Row>, stack: string): set<string> {
    set k | k in rows && rows[k].stack == stack
  }

  /** BringUpStack: afterwards every container of the stack is there and up, each
      missing one made from its snapshot; no spec in the records has changed. */
  method BringUpStack(d: Daemon, st: Store, stack: string) returns (r: Call<bool>)
    requires d.Valid() && NearlyFaithful(st.rows, d.world)
    requires forall k :: k in Members(st.rows, stack) ==> st.rows[k].name in d.guarded && st.rows[k].snapshot.name == st.rows[k].name
    modifies d`world, st`rows
    ensures d.Valid() && Lineage(old(d.world), d.world, old(d.world).next)
    ensures NearlyFaithful(st.rows, d.world) && SameButContainers(old(st.rows), st.rows)
    ensures d.reliable && Faithful(old(st.rows), old(d.world)) ==> Faithful(st.rows, d.world)
    ensures OthersAsWere(old(d.world), d.world, d.guarded, old(st.rows), Members(old(st.rows), stack))
    ensures r == Replied(true) ==> Members(old(st.rows), stack) != {} && AllUp(d.world, old(st.rows), Members(old(st.rows), stack))
  {
    var todo := Members(st.rows, stack);
    ghost var w0, rows0, all := d.world, st.rows, todo;
    if todo == {} {
      return Replied(false);
    }
    while todo != {}
      invariant d.Valid() && Lineage(w0, d.world, w0.next) && todo <= all
      invariant NearlyFaithful(st.rows, d.world) && SameButContainers(rows0, st.rows)
      invariant d.reliable && Faithful(rows0, w0) ==> Faithful(st.rows, d.world)
      invariant OthersAsWere(w0, d.world, d.guarded, rows0, all) && AllUp(d.world, rows0, all - todo)
    {
      var id :| id in todo;
      var up := BringUpNext(d, st, id, w0, rows0, all, todo);
      if up != Replied(true) {
        return up;
      }
      todo := todo - {id};
    }
    assert all - {} == all;
    r := Replied(true);
  }
}
