/** internal/docker/reconcile.go: keeping the managed records true to the containers
    there are, whatever the user does to them outside Veery. */
module Sweep {
  import opened Wrappers
  import opened Looks
  import opened Docker
  import opened Snapshots
  import opened Records
  import opened SelfUpdate
  import opened Recovery

  // ---- Which containers are services ----

  const TEMP_PREFIX := 12

  predicate HasPrefix(s: string, prefix: string) {
    |s| >= |prefix| && s[..|prefix|] == prefix
  }

  /** The part of `s` before the first underscore, if there is one. */
  function BeforeUnderscore(s: string): (r: Option<string>)
    ensures r.Some? <==> '_' in s
    ensures r.Some? ==> '_' !in r.value && |r.value| < |s| && s[..|r.value|] == r.value && s[|r.value|] == '_'
  {
    if s == [] then None
    else if s[0] == '_' then Some("")
    else match BeforeUnderscore(s[1..])
      case Some(rest) => Some([s[0]] + rest)
      case None => None
  }

  /** Compose renames or creates a container under a cut-off id, an underscore and the
      name; the id is its own, or that of the one it replaces. */
  predicate IsComposeTemp(name: string, id: string, labels: map<Label, string>) {
    match BeforeUnderscore(name)
    case Some(prefix) =>
      |prefix| == TEMP_PREFIX && (HasPrefix(id, prefix) || HasPrefix(LabelOf(labels, ComposeReplace), prefix))
    case None => false
  }

  predicate IsService(hex: Id -> string, name: Name, c: Summary) {
    !IsUpdater(c.labels) && name.parkings == 0 && !IsComposeTemp(Render(name), hex(c.id), c.labels)
  }

  /** Up and passing its healthcheck, or not running and not having failed. */
  predicate IsSettled(state: Option<RunState>) {
    && state.Some? && !state.value.restarting && !state.value.dead
    && if state.value.running then state.value.health in {NoHealth, Healthy, NoHealthcheck} else state.value.exitCode == 0
  }

  function StackOf(name: Name, labels: map<Label, string>): string {
    var project := LabelOf(labels, ComposeProject);
    if project == "" then Render(name) else project
  }

  predicate IsForgettable(hex: Id -> string, row: Row) {
    var id := if row.container.Some? then hex(row.container.value) else "";
    IsComposeTemp(Render(row.name), id, row.snapshot.spec.labels)
  }

  // ---- What a sweep may do to the records ----

  /** A row is as it was, or tells of a container that was seen settled while
      nothing else held its name. */
  ghost predicate Rerecorded(row: Row, row': Row, busy: set<Name>, looks: map<Id, Option<RunState>>) {
    row' == row ||
    (row.name !in busy && row' == row.(snapshot := row'.snapshot, container := row'.container) &&
     row'.container.Some? && row'.container.value in looks && IsSettled(looks[row'.container.value]))
  }

  /** A row as added for a service that showed up in a managed stack. */
  ghost predicate Adopted(row: Row, name: Name, c: Summary, stacks: set<string>) {
    && row.name == name && !row.autoUpdate && row.container == Some(c.id)
    && row.stack == StackOf(name, c.labels) && row.stack in stacks
  }

  /** Only rows of container name `name` may have changed: rerecorded, or added. */
  ghost predicate SweptAt(rows: map<string, Row>, rows': map<string, Row>, name: Name, c: Summary, stacks: set<string>,
                          busy: set<Name>, looks: map<Id, Option<RunState>>) {
    && (forall k :: k in rows ==> k in rows' && if rows[k].name == name then Rerecorded(rows[k], rows'[k], busy, looks) else rows'[k] == rows[k])
    && (forall k :: k in rows' && k !in rows ==> Adopted(rows'[k], name, c, stacks))
  }

  /** What has become of each row in a whole sweep. */
  ghost predicate Swept(rows: map<string, Row>, rows': map<string, Row>, hex: Id -> string, listing: map<Name, Summary>,
                        stacks: set<string>, busy: set<Name>, looks: map<Id, Option<RunState>>) {
    && (forall k :: k in rows && k in rows' ==> Rerecorded(rows[k], rows'[k], busy, looks))
    && (forall k :: k in rows' && k !in rows ==> NewService(rows'[k], hex, listing, stacks))
    && (forall k :: k in rows && k !in rows' ==> rows[k].name !in listing && IsForgettable(hex, rows[k]))
  }

  ghost predicate NewService(row: Row, hex: Id -> string, listing: map<Name, Summary>, stacks: set<string>) {
    row.name in listing && IsService(hex, row.name, listing[row.name]) && Adopted(row, row.name, listing[row.name], stacks)
  }

  ghost predicate OnePerName(rows: map<string, Row>) {
    forall j, k :: j in rows && k in rows && rows[j].name == rows[k].name ==> j == k
  }

  ghost predicate Managed(rows: map<string, Row>, name: Name) {
    exists k :: k in rows && rows[k].name == name
  }

  /** The records leave a sweep nothing to do for one container. */
  ghost predicate UpToDateAt(rows: map<string, Row>, stacks: set<string>, hex: Id -> string, name: Name, c: Summary) {
    IsService(hex, name, c) ==>
      if Managed(rows, name) then forall k :: k in rows && rows[k].name == name ==> rows[k].container == Some(c.id)
      else StackOf(name, c.labels) !in stacks
  }

  // ---- The sweep ----

  /** A key no row has. */
  method GenId(rows: map<string, Row>) returns (id: string)
    ensures id !in rows
  {
    id := "";
    ghost var tried: set<string> := {};
    while id in rows
      invariant tried <= rows.Keys && forall t :: t in tried ==> |t| < |id|
      decreases rows.Keys - tried
    {
      tried := tried + {id};
      id := id + "0";
    }
  }

  /** A service without a record gets one if its stack is managed. */
  method AdoptNew(d: Daemon, st: Store, name: Name, c: Summary, ghost busy: set<Name>, ghost looks: map<Id, Option<RunState>>)
    returns (r: Call<bool>)
    requires d.Valid() && Faithful(st.rows, d.world) && !Managed(st.rows, name)
    modifies d`world, st`rows
    ensures d.Valid() && Rely(old(d.world), d.world, d.guarded) && (d.reliable ==> d.world == old(d.world))
    ensures Faithful(st.rows, d.world) && SweptAt(old(st.rows), st.rows, name, c, st.stacks, busy, looks)
    ensures r.Crashed? || !r.value ==> st.rows == old(st.rows)
    ensures StackOf(name, c.labels) !in st.stacks ==> st.rows == old(st.rows) && r != Replied(true)
    ensures d.reliable ==> r.Replied?
    ensures d.reliable && st.reliable && Exists(d.world, c.id) && StackOf(name, c.labels) in st.stacks ==> Managed(st.rows, name)
    ensures OnePerName(old(st.rows)) ==> OnePerName(st.rows)
  {
    var stack := StackOf(name, c.labels);
    var known := st.Reach();
    if !known || stack !in st.stacks {
      return Replied(false);
    }
    ghost var w0 := d.world;
    var looked := d.Inspect(c.id);
    FaithfulUnderInterference(st.rows, w0, d.world);
    var inspected :- looked;
    if inspected.Failure? {
      return Replied(false);
    }
    ghost var rows := st.rows;
    var id := GenId(st.rows);
    var row := Row(stack, name, SnapshotOf(inspected.value), Some(inspected.value.id), false);
    AddingIsFaithful(st.rows, d.world, id, row, inspected.value);
    var stored := st.AddManaged(id, row);
    if stored {
      AddingSweeps(rows, id, row, c, st.stacks, busy, looks);
    }
    r := Replied(stored);
  }

  lemma AddingSweeps(rows: map<string, Row>, id: string, row: Row, c: Summary, stacks: set<string>, busy: set<Name>, looks: map<Id, Option<RunState>>)
    requires id !in rows && Adopted(row, row.name, c, stacks) && !Managed(rows, row.name)
    ensures SweptAt(rows, Added(rows, id, row), row.name, c, stacks, busy, looks) && Managed(Added(rows, id, row), row.name)
    ensures OnePerName(rows) ==> OnePerName(Added(rows, id, row))
  {
    assert Added(rows, id, row)[id].name == row.name;
  }

  /** The record follows container `live`, unless the name is held or `look`, what was
      seen of the container, shows it not to have settled. */
  method Rerecord(d: Daemon, st: Store, row: Row, live: Id, busy: set<Name>) returns (r: Call<bool>, ghost look: Option<Option<RunState>>)
    requires d.Valid() && Faithful(st.rows, d.world)
    modifies d`world, st`rows
    ensures d.Valid() && Rely(old(d.world), d.world, d.guarded) && (d.reliable ==> d.world == old(d.world))
    ensures Faithful(st.rows, d.world)
    ensures st.rows == old(st.rows) ||
            (row.name !in busy && look.Some? && IsSettled(look.value) &&
             exists k, snapshot :: k in old(st.rows) && old(st.rows)[k].name == row.name && st.rows == Rewritten(old(st.rows), k, snapshot, live))
    ensures r.Crashed? || !r.value ==> st.rows == old(st.rows)
    ensures live < old(d.world).next && !Exists(old(d.world), live) ==> st.rows == old(st.rows)
    ensures d.reliable ==> r.Replied?
    ensures d.reliable && st.reliable && Exists(d.world, live) && Managed(st.rows, row.name) ==>
      || row.name in busy || (look.Some? && !IsSettled(look.value))
      || exists k :: k in st.rows && st.rows[k].name == row.name && st.rows[k].container == Some(live)
  {
    look := None;
    r := Replied(false);
    if row.name in busy {
      return;
    }
    var found := st.ManagedByName(row.name);
    if found.None? {
      return;
    }
    assert st.rows[found.value].name == row.name;
    if st.rows[found.value].container == Some(live) {
      return;
    }
    ghost var w0 := d.world;
    var looked := d.Inspect(live);
    FaithfulUnderInterference(st.rows, w0, d.world);
    var inspected :- looked;
    if inspected.Failure? {
      return Replied(false), look;
    }
    var i := inspected.value;
    look := Some(i.state);
    if !IsSettled(i.state) {
      return Replied(false), look;
    }
    RecordingIsFaithful(st.rows, d.world, found.value, i);
    var stored := st.RecordSpec(found.value, i);
    assert stored ==> st.rows[found.value].name == row.name;
    r := Replied(stored);
  }

  // ---- One container of a listing ----

  /** Why the sweep may leave a recreated container's record as it is. */
  ghost predicate Excused(name: Name, c: Summary, busy: set<Name>, looks: map<Id, Option<RunState>>) {
    name in busy || (c.id in looks && !IsSettled(looks[c.id]))
  }

  /** A row of the given name, as the sweep indexed them. */
  method RowNamed(rows: map<string, Row>, name: Name) returns (r: Option<Row>)
    ensures r.Some? ==> r.value.name == name && exists k :: k in rows && rows[k] == r.value
    ensures r.None? ==> !Managed(rows, name)
  {
    var found := set k | k in rows && rows[k].name == name;
    if found == {} {
      assert forall k :: k in rows && rows[k].name == name ==> k in found;
      return None;
    }
    var k :| k in found;
    r := Some(rows[k]);
  }

  lemma RewritingSweeps(rows: map<string, Row>, rows': map<string, Row>, name: Name, c: Summary, stacks: set<string>,
                        busy: set<Name>, looks: map<Id, Option<RunState>>, k: string, snapshot: Snapshot)
    requires k in rows && rows[k].name == name && rows' == Rewritten(rows, k, snapshot, c.id)
    requires name !in busy && c.id in looks && IsSettled(looks[c.id])
    ensures SweptAt(rows, rows', name, c, stacks, busy, looks)
    ensures OnePerName(rows) ==> OnePerName(rows')
  {
  }

  ghost predicate LooksGrew(looks: map<Id, Option<RunState>>, looks': map<Id, Option<RunState>>, id: Id) {
    looks'.Keys <= looks.Keys + {id} && forall i :: i in looks ==> i in looks' && looks'[i] == looks[i]
  }

  /** Brings the records up to date with one listed container. */
  method SweepOne(d: Daemon, st: Store, hex: Id -> string, name: Name, c: Summary, busy: set<Name>,
                  ghost looks: map<Id, Option<RunState>>)
    returns (r: Call<bool>, ghost looks': map<Id, Option<RunState>>)
    requires d.Valid() && Faithful(st.rows, d.world) && c.id !in looks
    modifies d`world, st`rows
    ensures d.Valid() && Rely(old(d.world), d.world, d.guarded) && (d.reliable ==> d.world == old(d.world))
    ensures Faithful(st.rows, d.world) && SweptAt(old(st.rows), st.rows, name, c, st.stacks, busy, looks')
    ensures !IsService(hex, name, c) ==> st.rows == old(st.rows)
    ensures LooksGrew(looks, looks', c.id)
    ensures UpToDateAt(old(st.rows), st.stacks, hex, name, c) ==> st.rows == old(st.rows) && r != Replied(true)
    ensures OnePerName(old(st.rows)) ==> OnePerName(st.rows)
    ensures d.reliable ==> r.Replied?
    ensures d.reliable && st.reliable && Exists(d.world, c.id) && OnePerName(old(st.rows)) ==>
      UpToDateAt(st.rows, st.stacks, hex, name, c) || Excused(name, c, busy, looks')
  {
    looks' := looks;
    r := Replied(false);
    if !IsService(hex, name, c) {
      return;
    }
    var known := RowNamed(st.rows, name);
    if known.None? {
      r := AdoptNew(d, st, name, c, busy, looks);
      return;
    }
    r, looks' := SweepKnown(d, st, known.value, name, c, busy, looks);
  }

  /** The same for one that has a row. */
  method SweepKnown(d: Daemon, st: Store, row: Row, name: Name, c: Summary, busy: set<Name>, ghost looks: map<Id, Option<RunState>>)
    returns (r: Call<bool>, ghost looks': map<Id, Option<RunState>>)
    requires d.Valid() && Faithful(st.rows, d.world) && c.id !in looks
    requires row.name == name && exists k :: k in st.rows && st.rows[k] == row
    modifies d`world, st`rows
    ensures d.Valid() && Rely(old(d.world), d.world, d.guarded) && (d.reliable ==> d.world == old(d.world))
    ensures Faithful(st.rows, d.world) && SweptAt(old(st.rows), st.rows, name, c, st.stacks, busy, looks')
    ensures LooksGrew(looks, looks', c.id) && (OnePerName(old(st.rows)) ==> OnePerName(st.rows))
    ensures row.container == Some(c.id) ==> st.rows == old(st.rows) && r != Replied(true)
    ensures d.reliable ==> r.Replied?
    ensures d.reliable && st.reliable && Exists(d.world, c.id) && OnePerName(old(st.rows)) ==>
      (forall k :: k in st.rows && st.rows[k].name == name ==> st.rows[k].container == Some(c.id)) || Excused(name, c, busy, looks')
  {
    looks' := looks;
    r := Replied(false);
    if row.container == Some(c.id) {
      return;
    }
    ghost var rows, look := st.rows, None;
    r, look := Rerecord(d, st, row, c.id, busy);
    if look.Some? {
      looks' := looks[c.id := look.value];
    }
    if st.rows != rows {
      ghost var k, snapshot :| k in rows && rows[k].name == name && st.rows == Rewritten(rows, k, snapshot, c.id);
      RewritingSweeps(rows, st.rows, name, c, st.stacks, busy, looks', k, snapshot);
    }
  }

  // ---- The whole sweep ----

  /** A sweep of a listing under way, with `todo` left. */
  ghost predicate Sweeping(rows0: map<string, Row>, rows: map<string, Row>, hex: Id -> string, listing: map<Name, Summary>,
                           stacks: set<string>, busy: set<Name>, looks: map<Id, Option<RunState>>, todo: set<Name>) {
    && (forall k :: k in rows0 ==> k in rows && Rerecorded(rows0[k], rows[k], busy, looks))
    && (forall k :: k in rows0 && (rows0[k].name in todo || rows0[k].name !in listing) ==> rows[k] == rows0[k])
    && (forall k :: k in rows && k !in rows0 ==> NewService(rows[k], hex, listing, stacks) && rows[k].name !in todo)
  }

  lemma SweepingStep(rows0: map<string, Row>, rows: map<string, Row>, rows': map<string, Row>, hex: Id -> string,
                     listing: map<Name, Summary>, stacks: set<string>, busy: set<Name>,
                     looks: map<Id, Option<RunState>>, looks': map<Id, Option<RunState>>, todo: set<Name>, name: Name)
    requires Sweeping(rows0, rows, hex, listing, stacks, busy, looks, todo) && name in todo && name in listing
    requires SweptAt(rows, rows', name, listing[name], stacks, busy, looks') && LooksGrew(looks, looks', listing[name].id)
    requires !IsService(hex, name, listing[name]) ==> rows' == rows
    ensures Sweeping(rows0, rows', hex, listing, stacks, busy, looks', todo - {name})
  {
    forall k | k in rows' && k !in rows0
      ensures NewService(rows'[k], hex, listing, stacks) && rows'[k].name !in todo - {name}
    {
      if k in rows {
        assert rows[k].name != name;
      } else {
        assert Adopted(rows'[k], name, listing[name], stacks);
      }
    }
  }

  lemma UpToDateElsewhere(rows: map<string, Row>, rows': map<string, Row>, stacks: set<string>, hex: Id -> string, name: Name, c: Summary,
                          busy: set<Name>, looks: map<Id, Option<RunState>>, other: Name, o: Summary)
    requires SweptAt(rows, rows', name, c, stacks, busy, looks) && other != name
    ensures UpToDateAt(rows', stacks, hex, other, o) <==> UpToDateAt(rows, stacks, hex, other, o)
  {
    forall k | k in rows' && k !in rows ensures rows'[k].name == name {
      assert Adopted(rows'[k], name, c, stacks);
    }
  }

  /** Nothing listed so far is left behind the daemon without an excuse. */
  ghost predicate CaughtUp(rows: map<string, Row>, stacks: set<string>, hex: Id -> string, listing: map<Name, Summary>,
                           busy: set<Name>, looks: map<Id, Option<RunState>>, todo: set<Name>) {
    forall n :: n in listing && n !in todo ==> CaughtUpAt(rows, stacks, hex, n, listing[n], busy, looks)
  }

  ghost predicate CaughtUpAt(rows: map<string, Row>, stacks: set<string>, hex: Id -> string, n: Name, c: Summary,
                             busy: set<Name>, looks: map<Id, Option<RunState>>) {
    UpToDateAt(rows, stacks, hex, n, c) || Excused(n, c, busy, looks)
  }

  lemma CaughtUpStep(rows: map<string, Row>, rows': map<string, Row>, hex: Id -> string,
                     listing: map<Name, Summary>, stacks: set<string>, busy: set<Name>,
                     looks: map<Id, Option<RunState>>, looks': map<Id, Option<RunState>>, todo: set<Name>, name: Name)
    requires CaughtUp(rows, stacks, hex, listing, busy, looks, todo) && name in todo && name in listing
    requires SweptAt(rows, rows', name, listing[name], stacks, busy, looks') && LooksGrew(looks, looks', listing[name].id)
    requires UpToDateAt(rows', stacks, hex, name, listing[name]) || Excused(name, listing[name], busy, looks')
    ensures CaughtUp(rows', stacks, hex, listing, busy, looks', todo - {name})
  {
    forall n | n in listing && n !in todo - {name}
      ensures CaughtUpAt(rows', stacks, hex, n, listing[n], busy, looks')
    {
      assert n != name ==> CaughtUpAt(rows, stacks, hex, n, listing[n], busy, looks);
      if n != name {
        UpToDateElsewhere(rows, rows', stacks, hex, name, listing[name], busy, looks', n, listing[n]);
      }
    }
  }

  /** What a sweep of a listing keeps, with `todo` left. */
  ghost predicate UnderWay(rows0: map<string, Row>, rows: map<string, Row>, hex: Id -> string, listing: map<Name, Summary>,
                           stacks: set<string>, busy: set<Name>, looks: map<Id, Option<RunState>>, todo: set<Name>, reliable: bool) {
    && Sweeping(rows0, rows, hex, listing, stacks, busy, looks, todo)
    && (forall n :: n in todo ==> n in listing && listing[n].id !in looks)
    && (OnePerName(rows0) ==> OnePerName(rows))
    && (reliable && OnePerName(rows0) ==> CaughtUp(rows, stacks, hex, listing, busy, looks, todo))
  }

  lemma UnderWayStep(rows0: map<string, Row>, rows: map<string, Row>, rows': map<string, Row>, hex: Id -> string,
                     listing: map<Name, Summary>, stacks: set<string>, busy: set<Name>,
                     looks: map<Id, Option<RunState>>, looks': map<Id, Option<RunState>>, todo: set<Name>, name: Name, reliable: bool)
    requires UnderWay(rows0, rows, hex, listing, stacks, busy, looks, todo, reliable) && name in todo
    requires forall m, n :: m in listing && n in listing && listing[m].id == listing[n].id ==> m == n
    requires SweptAt(rows, rows', name, listing[name], stacks, busy, looks') && LooksGrew(looks, looks', listing[name].id)
    requires !IsService(hex, name, listing[name]) ==> rows' == rows
    requires OnePerName(rows) ==> OnePerName(rows')
    requires reliable && OnePerName(rows) ==> CaughtUpAt(rows', stacks, hex, name, listing[name], busy, looks')
    ensures UnderWay(rows0, rows', hex, listing, stacks, busy, looks', todo - {name}, reliable)
  {
    SweepingStep(rows0, rows, rows', hex, listing, stacks, busy, looks, looks', todo, name);
    if reliable && OnePerName(rows0) {
      CaughtUpStep(rows, rows', hex, listing, stacks, busy, looks, looks', todo, name);
    }
  }

  /** Sweeps one of the containers left to do. */
  method SweepNext(d: Daemon, st: Store, hex: Id -> string, listing: map<Name, Summary>, name: Name, busy: set<Name>,
                   ghost looks: map<Id, Option<RunState>>, ghost w0: World, ghost rows0: map<string, Row>, ghost todo: set<Name>)
    returns (r: Call<bool>, ghost looks': map<Id, Option<RunState>>)
    requires d.Valid() && WellFormed(w0) && Rely(w0, d.world, d.guarded) && (d.reliable ==> d.world == w0)
    requires forall m, n :: m in listing && n in listing && listing[m].id == listing[n].id ==> m == n
    requires d.reliable ==> Listed(listing, d.world)
    requires Faithful(st.rows, d.world) && todo <= listing.Keys && name in todo
    requires UnderWay(rows0, st.rows, hex, listing, st.stacks, busy, looks, todo, d.reliable && st.reliable)
    requires CaughtUp(rows0, st.stacks, hex, listing, {}, map[], {}) ==> st.rows == rows0
    modifies d`world, st`rows
    ensures d.Valid() && Rely(w0, d.world, d.guarded) && (d.reliable ==> d.world == w0 && r.Replied?)
    ensures Faithful(st.rows, d.world)
    ensures UnderWay(rows0, st.rows, hex, listing, st.stacks, busy, looks', todo - {name}, d.reliable && st.reliable)
    ensures CaughtUp(rows0, st.stacks, hex, listing, {}, map[], {}) ==> st.rows == rows0 && r != Replied(true)
  {
    ghost var before, rows := d.world, st.rows;
    assert CaughtUp(rows0, st.stacks, hex, listing, {}, map[], {}) ==> CaughtUpAt(rows, st.stacks, hex, name, listing[name], {}, map[]);
    r, looks' := SweepOne(d, st, hex, name, listing[name], busy, looks);
    RelyTransitive(w0, before, d.world, d.guarded);
    UnderWayStep(rows0, rows, st.rows, hex, listing, st.stacks, busy, looks, looks', todo, name, d.reliable && st.reliable);
  }

  /** The first half of a sweep: every listed container. */
  method SweepListed(d: Daemon, st: Store, hex: Id -> string, listing: map<Name, Summary>, busy: set<Name>)
    returns (r: Call<bool>, ghost looks: map<Id, Option<RunState>>)
    requires d.Valid() && Faithful(st.rows, d.world)
    requires forall m, n :: m in listing && n in listing && listing[m].id == listing[n].id ==> m == n
    requires d.reliable ==> Listed(listing, d.world)
    modifies d`world, st`rows
    ensures d.Valid() && Rely(old(d.world), d.world, d.guarded) && (d.reliable ==> d.world == old(d.world) && r.Replied?)
    ensures Faithful(st.rows, d.world)
    ensures exists todo :: Sweeping(old(st.rows), st.rows, hex, listing, st.stacks, busy, looks, todo)
    ensures CaughtUp(old(st.rows), st.stacks, hex, listing, {}, map[], {}) ==> st.rows == old(st.rows) && r != Replied(true)
    ensures OnePerName(old(st.rows)) ==> OnePerName(st.rows)
    ensures d.reliable && st.reliable && OnePerName(old(st.rows)) ==>
      CaughtUp(st.rows, st.stacks, hex, listing, busy, looks, {})
  {
    looks := map[];
    var todo := listing.Keys;
    var changed := false;
    ghost var w0, rows0 := d.world, st.rows;
    while todo != {}
      invariant d.Valid() && Rely(w0, d.world, d.guarded) && (d.reliable ==> d.world == w0)
      invariant Faithful(st.rows, d.world) && todo <= listing.Keys
      invariant UnderWay(rows0, st.rows, hex, listing, st.stacks, busy, looks, todo, d.reliable && st.reliable)
      invariant CaughtUp(rows0, st.stacks, hex, listing, {}, map[], {}) ==> st.rows == rows0 && !changed
    {
      var name :| name in todo;
      var swept;
      swept, looks := SweepNext(d, st, hex, listing, name, busy, looks, w0, rows0, todo);
      if swept.Crashed? {
        return Crashed, looks;
      }
      changed := swept.value || changed;
      todo := todo - {name};
    }
    r := Replied(changed);
  }

  ghost predicate NothingToForget(rows: map<string, Row>, hex: Id -> string, listing: map<Name, Summary>) {
    forall k :: k in rows && rows[k].name !in listing ==> !IsForgettable(hex, rows[k])
  }

  /** The second half: records of compose's temporary containers that are gone. */
  method ForgetGone(st: Store, hex: Id -> string, listing: map<Name, Summary>) returns (changed: bool)
    modifies st
    ensures forall k :: k in st.rows ==> k in old(st.rows) && st.rows[k] == old(st.rows)[k]
    ensures forall k :: k in old(st.rows) && k !in st.rows ==> old(st.rows)[k].name !in listing && IsForgettable(hex, old(st.rows)[k])
    ensures st.stacks <= old(st.stacks)
    ensures NothingToForget(old(st.rows), hex, listing) ==> st.rows == old(st.rows) && st.stacks == old(st.stacks) && !changed
    ensures st.reliable ==> NothingToForget(st.rows, hex, listing)
  {
    changed := false;
    var rows := st.rows;
    var todo := set k | k in rows && rows[k].name !in listing;
    while todo != {}
      invariant todo <= rows.Keys && rows == old(st.rows)
      invariant forall k :: k in todo ==> k in st.rows && rows[k].name !in listing
      invariant forall k :: k in st.rows ==> k in rows && st.rows[k] == rows[k]
      invariant forall k :: k in rows && k !in st.rows ==> rows[k].name !in listing && IsForgettable(hex, rows[k])
      invariant st.stacks <= old(st.stacks)
      invariant NothingToForget(rows, hex, listing) ==> st.rows == rows && st.stacks == old(st.stacks) && !changed
      invariant st.reliable ==> forall k :: k in st.rows && k !in todo && rows[k].name !in listing ==> !IsForgettable(hex, rows[k])
    {
      var k :| k in todo;
      if IsForgettable(hex, rows[k]) {
        var gone := st.DeleteManaged(k);
        changed := changed || gone;
      }
      todo := todo - {k};
    }
  }

  /** A sweep of this listing would find nothing to write. */
  ghost predicate Quiescent(rows: map<string, Row>, stacks: set<string>, hex: Id -> string, listing: map<Name, Summary>) {
    CaughtUp(rows, stacks, hex, listing, {}, map[], {}) && NothingToForget(rows, hex, listing)
  }

  lemma SweptInTwo(rows0: map<string, Row>, rows: map<string, Row>, rows': map<string, Row>, hex: Id -> string,
                   listing: map<Name, Summary>, stacks: set<string>, busy: set<Name>, looks: map<Id, Option<RunState>>, todo: set<Name>)
    requires Sweeping(rows0, rows, hex, listing, stacks, busy, looks, todo)
    requires forall k :: k in rows' ==> k in rows && rows'[k] == rows[k]
    requires forall k :: k in rows && k !in rows' ==> rows[k].name !in listing && IsForgettable(hex, rows[k])
    ensures Swept(rows0, rows', hex, listing, stacks, busy, looks)
  {
    forall k | k in rows0 && k !in rows' ensures rows0[k].name !in listing && IsForgettable(hex, rows0[k]) {
      assert Rerecorded(rows0[k], rows[k], busy, looks);
      assert rows[k].name == rows0[k].name;
    }
  }

  lemma ForgettingKeepsUp(rows: map<string, Row>, rows': map<string, Row>, hex: Id -> string, listing: map<Name, Summary>,
                          stacks: set<string>, stacks': set<string>, busy: set<Name>, looks: map<Id, Option<RunState>>)
    requires CaughtUp(rows, stacks, hex, listing, busy, looks, {}) && stacks' <= stacks
    requires forall k :: k in rows' ==> k in rows && rows'[k] == rows[k]
    requires forall k :: k in rows && k !in rows' ==> rows[k].name !in listing
    ensures CaughtUp(rows', stacks', hex, listing, busy, looks, {})
  {
    forall n | n in listing ensures CaughtUpAt(rows', stacks', hex, n, listing[n], busy, looks) {
      assert CaughtUpAt(rows, stacks, hex, n, listing[n], busy, looks);
      if UpToDateAt(rows, stacks, hex, n, listing[n]) && Managed(rows, n) {
        var k :| k in rows && rows[k].name == n;
        assert k in rows';
      }
    }
  }

  /** A whole sweep. Whoever recreates a container itself holds its name: `busy` are
      the names so held. */
  method Reconcile(d: Daemon, st: Store, hex: Id -> string, busy: set<Name>)
    returns (r: Call<bool>, ghost listing: map<Name, Summary>, ghost looks: map<Id, Option<RunState>>)
    requires d.Valid() && Faithful(st.rows, d.world)
    modifies d`world, st
    ensures d.Valid() && Rely(old(d.world), d.world, d.guarded) && (d.reliable ==> d.world == old(d.world))
    ensures Faithful(st.rows, d.world)
    // Rows change only to follow settled containers, to take on new services, or to
    // forget compose's leftovers.
    ensures r.Replied? ==> Swept(old(st.rows), st.rows, hex, listing, old(st.stacks), busy, looks)
    ensures OnePerName(old(st.rows)) ==> OnePerName(st.rows)
    ensures d.reliable ==> r.Replied? && Listed(listing, d.world)
    ensures d.reliable && st.reliable && OnePerName(old(st.rows)) ==>
      CaughtUp(st.rows, st.stacks, hex, listing, busy, looks, {}) && NothingToForget(st.rows, hex, listing)
    ensures Quiescent(old(st.rows), old(st.stacks), hex, listing) ==>
      st.rows == old(st.rows) && st.stacks == old(st.stacks) && r != Replied(true)
  {
    listing, looks := map[], map[];
    ghost var w0, rows0, stacks0 := d.world, st.rows, st.stacks;
    var listed := d.List();
    ghost var w1 := d.world;
    FaithfulUnderInterference(rows0, w0, w1);
    var listing' :- listed;
    if listing'.Failure? {
      return Replied(false), listing, looks;
    }
    listing := listing'.value;
    var swept;
    swept, looks := SweepListed(d, st, hex, listing'.value, busy);
    RelyTransitive(w0, w1, d.world, d.guarded);
    ghost var rows1 := st.rows;
    ghost var todo :| Sweeping(rows0, rows1, hex, listing, stacks0, busy, looks, todo);
    if swept.Crashed? {
      return Crashed, listing, looks;
    }
    var forgot := ForgetGone(st, hex, listing'.value);
    SweptInTwo(rows0, rows1, st.rows, hex, listing, stacks0, busy, looks, todo);
    if d.reliable && st.reliable && OnePerName(rows0) {
      ForgettingKeepsUp(rows1, st.rows, hex, listing, stacks0, st.stacks, busy, looks);
    }
    r := Replied(swept.value || forgot);
  }

  /** What a sweep has left to do depends on the ids and labels of a listing, which
      an unchanged daemon lists alike. */
  lemma ListedAlike(rows: map<string, Row>, stacks: set<string>, hex: Id -> string, one: map<Name, Summary>, two: map<Name, Summary>, w: World)
    requires Listed(one, w) && Listed(two, w) && Quiescent(rows, stacks, hex, one)
    ensures Quiescent(rows, stacks, hex, two)
  {
    forall n | n in two ensures UpToDateAt(rows, stacks, hex, n, two[n]) {
      assert CaughtUpAt(rows, stacks, hex, n, one[n], {}, map[]);
    }
  }

  ghost predicate NoneExcused(listing: map<Name, Summary>, busy: set<Name>, looks: map<Id, Option<RunState>>) {
    forall n :: n in listing ==> !Excused(n, listing[n], busy, looks)
  }

  lemma Unexcused(rows: map<string, Row>, stacks: set<string>, hex: Id -> string, listing: map<Name, Summary>,
                  busy: set<Name>, looks: map<Id, Option<RunState>>)
    requires CaughtUp(rows, stacks, hex, listing, busy, looks, {}) && NothingToForget(rows, hex, listing)
    requires NoneExcused(listing, busy, looks)
    ensures Quiescent(rows, stacks, hex, listing)
  {
    forall n | n in listing ensures UpToDateAt(rows, stacks, hex, n, listing[n]) {
      assert CaughtUpAt(rows, stacks, hex, n, listing[n], busy, looks);
    }
  }

  /** On an unchanged daemon a second sweep writes nothing, unless the first had to
      pass over a container that was held or had not settled. */
  method ReconcileTwice(d: Daemon, st: Store, hex: Id -> string, busy: set<Name>)
    returns (ghost listing: map<Name, Summary>, ghost looks: map<Id, Option<RunState>>, ghost rows: map<string, Row>, again: Call<bool>)
    requires d.reliable && st.reliable && d.Valid() && Faithful(st.rows, d.world) && OnePerName(st.rows)
    modifies d`world, st
    ensures Swept(old(st.rows), rows, hex, listing, old(st.stacks), busy, looks)
    ensures NoneExcused(listing, busy, looks) ==> st.rows == rows && again == Replied(false)
  {
    var first;
    first, listing, looks := Reconcile(d, st, hex, busy);
    rows := st.rows;
    ghost var stacks, listing' := st.stacks, map[];
    ghost var looks';
    again, listing', looks' := Reconcile(d, st, hex, busy);
    if NoneExcused(listing, busy, looks) {
      Unexcused(rows, stacks, hex, listing, busy, looks);
      ListedAlike(rows, stacks, hex, listing, listing', d.world);
      assert again != Replied(true) && again.Replied?;
      assert again.value == false;
    }
  }

  /** One of a series of sweeps: what it listed and found, and the rows it left. */
  datatype Pass = Pass(rows: map<string, Row>, listing: map<Name, Summary>, stacks: set<string>,
                       busy: set<Name>, looks: map<Id, Option<RunState>>)

  ghost predicate SweptBy(rows: map<string, Row>, p: Pass, hex: Id -> string) {
    Swept(rows, p.rows, hex, p.listing, p.stacks, p.busy, p.looks)
  }

  /** The rows after a series of sweeps. */
  function RowsAfter(rows: map<string, Row>, passes: seq<Pass>): map<string, Row> {
    if passes == [] then rows else passes[|passes| - 1].rows
  }

  ghost predicate InSeries(rows: map<string, Row>, passes: seq<Pass>, hex: Id -> string) {
    passes != [] ==>
      && InSeries(rows, passes[..|passes| - 1], hex)
      && SweptBy(RowsAfter(rows, passes[..|passes| - 1]), passes[|passes| - 1], hex)
  }

  /** A service of a managed stack: not parked, no helper, not compose's temporary container. */
  predicate ListedAsService(p: Pass, name: Name, hex: Id -> string) {
    && name in p.listing && IsService(hex, name, p.listing[name])
    && StackOf(name, p.listing[name].labels) in p.stacks
  }

  predicate EverListed(passes: seq<Pass>, name: Name, hex: Id -> string) {
    passes != [] && (ListedAsService(passes[|passes| - 1], name, hex) || EverListed(passes[..|passes| - 1], name, hex))
  }

  /** Over any number of sweeps, whatever the records come to hold they held at the
      start, or one of the sweeps listed as a service of a managed stack. */
  lemma {:induction false} ScaffoldingIsNeverAdopted(rows: map<string, Row>, passes: seq<Pass>, hex: Id -> string, k: string)
    requires InSeries(rows, passes, hex) && k in RowsAfter(rows, passes)
    ensures
      var name := RowsAfter(rows, passes)[k].name;
      (k in rows && rows[k].name == name) || EverListed(passes, name, hex)
    decreases |passes|
  {
    if passes != [] {
      var init, last := passes[..|passes| - 1], passes[|passes| - 1];
      OnePass(RowsAfter(rows, init), last, hex, k);
      if k in RowsAfter(rows, init) {
        ScaffoldingIsNeverAdopted(rows, init, hex, k);
      }
    }
  }

  lemma OnePass(rows: map<string, Row>, p: Pass, hex: Id -> string, k: string)
    requires SweptBy(rows, p, hex) && k in p.rows
    ensures if k in rows then p.rows[k].name == rows[k].name else ListedAsService(p, p.rows[k].name, hex)
  {
    if k !in rows {
      assert NewService(p.rows[k], hex, p.listing, p.stacks);
    }
  }
}
