/** internal/store/docker_store.go and the record-keeping half of
    internal/docker/reconcile.go: what Veery remembers of the containers it manages. */
module Records {
  import opened Wrappers
  import opened Docker
  import opened Snapshots

  /** `container` is the id the snapshot was taken from; None stands for the empty
      column of rows written before it existed. */
  datatype Row = Row(stack: string, name: Name, snapshot: Snapshot, container: Option<Id>, autoUpdate: bool)

  /** A row speaks the truth about the container it names: its snapshot is what
      that container was made from, up to what the daemon assigned at run time. */
  ghost predicate Truthful(row: Row, w: World) {
    row.container.Some? ==>
      row.container.value in w.made && Core(row.snapshot.spec) == Core(w.made[row.container.value].spec)
  }

  ghost predicate Faithful(rows: map<string, Row>, w: World) {
    forall k :: k in rows ==> Truthful(rows[k], w)
  }

  /** Nothing that leaves the existing containers' make alone can make the records
      lie: a recreated container has a new id. */
  lemma FaithfulUnderInterference(rows: map<string, Row>, w: World, w': World)
    requires WellFormed(w) && Faithful(rows, w) && Lineage(w, w', w.next)
    ensures Faithful(rows, w')
  {
    forall k | k in rows ensures Truthful(rows[k], w') {
      assert Truthful(rows[k], w);
    }
  }

  class Store {
    var rows: map<string, Row>
    var stacks: set<string>
    const reliable: bool

    /** Whether a statement reaches the database. */
    method Reach() returns (ok: bool)
      ensures reliable ==> ok
    {
      ok := *;
      if reliable {
        ok := true;
      }
    }

    /** UPDATE ... WHERE id: a missing row is not an error. */
    method UpdateSnapshot(id: string, snapshot: Snapshot, container: Id) returns (ok: bool)
      modifies this`rows
      ensures rows == if ok && id in old(rows) then Rewritten(old(rows), id, snapshot, container) else old(rows)
      ensures reliable ==> ok
    {
      ok := Reach();
      if ok && id in rows {
        rows := rows[id := rows[id].(snapshot := snapshot, container := Some(container))];
      }
    }

    /** A row of that container name, if one can be found. */
    method ManagedByName(name: Name) returns (r: Option<string>)
      ensures r.Some? ==> r.value in rows && rows[r.value].name == name
      ensures reliable && r.None? ==> forall id :: id in rows ==> rows[id].name != name
    {
      var ok := Reach();
      var ids := set id | id in rows && rows[id].name == name;
      if !ok || ids == {} {
        assert ids == {} ==> forall id :: id in rows && rows[id].name == name ==> id in ids;
        return None;
      }
      var id :| id in ids;
      r := Some(id);
    }

    /** INSERT ... ON CONFLICT(id): a row that is there keeps its name and its
        auto-update setting. */
    method AddManaged(id: string, row: Row) returns (ok: bool)
      modifies this`rows
      ensures rows == if ok then Added(old(rows), id, row) else old(rows)
      ensures reliable ==> ok
    {
      ok := Reach();
      if !ok {
        return;
      }
      if id in rows {
        rows := rows[id := rows[id].(stack := row.stack, snapshot := row.snapshot, container := row.container)];
      } else {
        rows := rows[id := row];
      }
    }

    /** Deletes a row; a stack is deleted with its only row. */
    method DeleteManaged(id: string) returns (ok: bool)
      modifies this
      ensures ok ==> id in old(rows) && rows == old(rows) - {id}
      ensures ok && (exists k :: k in rows && rows[k].stack == old(rows)[id].stack) ==> stacks == old(stacks)
      ensures ok && (forall k :: k in rows ==> rows[k].stack != old(rows)[id].stack) ==> stacks == old(stacks) - {old(rows)[id].stack}
      ensures !ok ==> rows == old(rows) && stacks == old(stacks)
      ensures reliable && id in old(rows) ==> ok
    {
      ok := Reach();
      if !ok || id !in rows {
        return false;
      }
      var stack := rows[id].stack;
      rows := rows - {id};
      var left := set k | k in rows && rows[k].stack == stack;
      if left == {} {
        assert forall k :: k in rows && rows[k].stack == stack ==> k in left;
        stacks := stacks - {stack};
      } else {
        var k :| k in left;
      }
    }

    /** Makes the row tell of the container inspected. */
    method RecordSpec(id: string, i: Inspection) returns (ok: bool)
      modifies this`rows
      ensures rows == if ok && id in old(rows) then Rewritten(old(rows), id, SnapshotOf(i), i.id) else old(rows)
      ensures reliable ==> ok
    {
      ok := UpdateSnapshot(id, SnapshotOf(i), i.id);
    }

    /** The spec to work from. Ids decide: the stored snapshot serves only if the row
        names this very container, else what was inspected is written and used. */
    method RefreshIfRecreated(id: string, row: Row, i: Inspection) returns (r: Result<Snapshot, ()>)
      modifies this`rows
      ensures rows == old(rows) || (id in old(rows) && row.container != Some(i.id) && rows == Rewritten(old(rows), id, SnapshotOf(i), i.id))
      ensures reliable ==> r.Success?
      ensures r.Success? ==> r.value == if row.container == Some(i.id) then row.snapshot else SnapshotOf(i)
    {
      if row.container != Some(i.id) {
        var ok := RecordSpec(id, i);
        return if ok then Success(SnapshotOf(i)) else Failure(());
      }
      r := Success(row.snapshot);
    }
  }

  function Added(rows: map<string, Row>, id: string, row: Row): map<string, Row> {
    rows[id := if id in rows then rows[id].(stack := row.stack, snapshot := row.snapshot, container := row.container) else row]
  }

  lemma AddingIsFaithful(rows: map<string, Row>, w: World, id: string, row: Row, i: Inspection)
    requires Faithful(rows, w) && Inspected(i, w) && row.snapshot == SnapshotOf(i) && row.container == Some(i.id)
    ensures Faithful(Added(rows, id, row), w)
  {
    forall k | k in Added(rows, id, row) ensures Truthful(Added(rows, id, row)[k], w) {
      if k != id {
        assert Truthful(rows[k], w);
      }
    }
  }

  function Rewritten(rows: map<string, Row>, id: string, snapshot: Snapshot, container: Id): map<string, Row>
    requires id in rows
  {
    rows[id := rows[id].(snapshot := snapshot, container := Some(container))]
  }

  lemma RecordingIsFaithful(rows: map<string, Row>, w: World, id: string, i: Inspection)
    requires Faithful(rows, w) && id in rows && Inspected(i, w)
    ensures Faithful(Rewritten(rows, id, SnapshotOf(i), i.id), w)
  {
    var rows' := Rewritten(rows, id, SnapshotOf(i), i.id);
    forall k | k in rows' ensures Truthful(rows'[k], w) {
      if k != id {
        assert Truthful(rows[k], w);
      }
    }
  }
}
