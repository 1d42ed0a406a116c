/** The dashboard's task map: a REST snapshot reconciled with live updates. */
module TaskMerge {
  import opened Basics

  /** A property value; a property may be absent, or present and undefined or null. */
  datatype Value = Undefined | Null | Val(n: nat) {
    predicate Nullish() {
      !Val?
    }
  }

  type Fields = map<string, Value>

  /** A task: its id and all other own properties. */
  datatype Task = Task(id: string, fields: Fields)

  /** A live update: `deleted` is its truthiness; `fields` are the own properties besides the id. */
  datatype Telemetry = Telemetry(id: string, deleted: bool, fields: Fields)

  type TaskMap = map<string, Task>

  function Get(fields: Fields, key: string): Value {
    if key in fields then fields[key] else Undefined
  }

  /** `a ?? b` */
  function OrElse(a: Value, b: Value): Value {
    if a.Nullish() then b else a
  }

  function EnrichTask(task: Task, telemetry: Telemetry): Task {
    Task(task.id, (task.fields + telemetry.fields)[
      "name" := OrElse(Get(telemetry.fields, "name"), Get(task.fields, "name"))][
      "state" := OrElse(Get(telemetry.fields, "state"), Get(task.fields, "state"))][
      "runtime" := OrElse(Get(telemetry.fields, "runtime"), Get(task.fields, "runtime"))])
  }

  function MergeKnownTask(tasks: TaskMap, telemetry: Telemetry, deleted: set<string>): TaskMap {
    if telemetry.deleted || telemetry.id in deleted then
      if telemetry.id !in tasks then tasks else tasks - {telemetry.id}
    else if telemetry.id !in tasks then tasks
    else tasks[telemetry.id := EnrichTask(tasks[telemetry.id], telemetry)]
  }

  /** Live updates merged one by one, oldest first. */
  function MergeAll(tasks: TaskMap, updates: seq<Telemetry>, deleted: set<string>): TaskMap {
    if updates == [] then tasks
    else MergeKnownTask(MergeAll(tasks, updates[..|updates| - 1], deleted), updates[|updates| - 1], deleted)
  }

  /** The snapshot without tasks known to be deleted; of two records with one id the later stays. */
  function Snapshot(records: seq<Task>, deleted: set<string>): TaskMap {
    if records == [] then map[]
    else
      var front, last := Snapshot(records[..|records| - 1], deleted), records[|records| - 1];
      if last.id in deleted then front else front[last.id := last]
  }

  /** Reconciling in place is merging the buffered updates into the filtered snapshot, in order. */
  method ReconcileTaskSnapshot(
      records: seq<Task>, buffered: seq<Telemetry>, deleted: set<string>) returns (tasks: TaskMap)
    ensures tasks == MergeAll(Snapshot(records, deleted), buffered, deleted)
  {
    tasks := map[];
    for i := 0 to |records|
      invariant tasks == Snapshot(records[..i], deleted)
    {
      assert records[..i + 1][..i] == records[..i];
      if records[i].id !in deleted {
        tasks := tasks[records[i].id := records[i]];
      }
    }
    assert records[..|records|] == records;
    SnapshotClean(records, deleted);
    ghost var snapshot := tasks;
    for i := 0 to |buffered|
      invariant tasks == MergeAll(snapshot, buffered[..i], deleted)
      invariant tasks.Keys !! deleted
    {
      assert buffered[..i + 1][..i] == buffered[..i];
      var telemetry := buffered[i];
      if telemetry.deleted {
        tasks := tasks - {telemetry.id};
        continue;
      }
      if telemetry.id in tasks && telemetry.id !in deleted {
        tasks := tasks[telemetry.id := EnrichTask(tasks[telemetry.id], telemetry)];
      }
    }
    assert buffered[..|buffered|] == buffered;
  }

  lemma {:induction false} SnapshotClean(records: seq<Task>, deleted: set<string>)
    ensures Snapshot(records, deleted).Keys !! deleted
    ensures forall t :: t in Snapshot(records, deleted) ==> Snapshot(records, deleted)[t].id == t
  {
    if records == [] {
    } else {
      SnapshotClean(records[..|records| - 1], deleted);
    }
  }

  /** The last record of a task. */
  ghost predicate LastRecord(records: seq<Task>, id: string, r: Task) {
    exists i :: 0 <= i < |records| && records[i] == r && r.id == id
      && forall j :: i < j < |records| ==> records[j].id != id
  }

  /** An id is in the snapshot exactly when a record carries it and it is not deleted, with its last record. */
  lemma {:induction false} SnapshotIs(records: seq<Task>, deleted: set<string>, id: string)
    ensures var s := Snapshot(records, deleted);
      && (id in s <==> id !in deleted && exists i :: 0 <= i < |records| && records[i].id == id)
      && (id in s ==> LastRecord(records, id, s[id]))
  {
    if records == [] {
    } else {
      var front, n := records[..|records| - 1], |records| - 1;
      SnapshotIs(front, deleted, id);
      if records[n].id == id {
        assert id !in deleted ==> LastRecord(records, id, records[n]);
      } else if id in Snapshot(front, deleted) {
        var r := Snapshot(front, deleted)[id];
        var i :| 0 <= i < n && front[i] == r && r.id == id && forall j :: i < j < n ==> front[j].id != id;
        assert forall j :: i < j <= n ==> records[j].id != id;
        assert records[i] == r && LastRecord(records, id, r);
      } else {
        assert forall i :: 0 <= i < n ==> records[i] == front[i];
      }
    }
  }

  // --- what the merged map shows ---

  function At(tasks: TaskMap, id: string): Option<Task> {
    if id in tasks then Some(tasks[id]) else None
  }

  /** The updates of one task, oldest first. */
  function Mine(updates: seq<Telemetry>, id: string): (r: seq<Telemetry>)
  {
    if updates == [] then []
    else
      var front, last := Mine(updates[..|updates| - 1], id), updates[|updates| - 1];
      if last.id == id then front + [last] else front
  }

  function EnrichAll(task: Task, mine: seq<Telemetry>): Task {
    if mine == [] then task else EnrichTask(EnrichAll(task, mine[..|mine| - 1]), mine[|mine| - 1])
  }

  ghost predicate Deletes(mine: seq<Telemetry>) {
    exists i :: 0 <= i < |mine| && mine[i].deleted
  }

  /**
   * Each task shows its own record enriched by its own updates, in order; a task
   * is shown exactly when it was in the snapshot and neither the deleted set nor
   * any update says it is gone.  Nothing brings it back.
   */
  lemma {:induction false} ShownTask(tasks: TaskMap, updates: seq<Telemetry>, deleted: set<string>, id: string)
    requires tasks.Keys !! deleted
    ensures At(MergeAll(tasks, updates, deleted), id)
         == if id in tasks && !Deletes(Mine(updates, id)) then Some(EnrichAll(tasks[id], Mine(updates, id))) else None
  {
    if updates == [] {
    } else {
      var front, last := updates[..|updates| - 1], updates[|updates| - 1];
      ShownTask(tasks, front, deleted, id);
      if last.id == id {
        var mine := Mine(front, id);
        DeletesSnoc(mine, last);
        assert (mine + [last])[..|mine|] == mine;
      }
    }
  }

  lemma DeletesSnoc(mine: seq<Telemetry>, last: Telemetry)
    ensures Deletes(mine + [last]) <==> Deletes(mine) || last.deleted
  {
    var longer := mine + [last];
    assert longer[|mine|] == last;
    if Deletes(mine) {
      var i :| 0 <= i < |mine| && mine[i].deleted;
      assert longer[i].deleted;
    }
  }

  /** The last usable value of a property among the updates, if any. */
  function LastUsable(mine: seq<Telemetry>, key: string): Option<Value> {
    if mine == [] then None
    else
      var v := Get(mine[|mine| - 1].fields, key);
      if !v.Nullish() then Some(v) else LastUsable(mine[..|mine| - 1], key)
  }

  /** The last value given at all. */
  function LastGiven(mine: seq<Telemetry>, key: string): Option<Value> {
    if mine == [] then None
    else
      var fields := mine[|mine| - 1].fields;
      if key in fields then Some(fields[key]) else LastGiven(mine[..|mine| - 1], key)
  }

  predicate Guarded(key: string) {
    key == "name" || key == "state" || key == "runtime"
  }

  /**
   * Identity never changes; name, state and runtime are the last usable value
   * sent and are never blanked by a partial update; every other property is the
   * last value sent, even a null one.
   */
  lemma {:induction false} EnrichedFields(task: Task, mine: seq<Telemetry>, key: string)
    ensures EnrichAll(task, mine).id == task.id
    ensures Get(EnrichAll(task, mine).fields, key) ==
      match if Guarded(key) then LastUsable(mine, key) else LastGiven(mine, key)
      case Some(v) => v
      case None => Get(task.fields, key)
  {
    if mine == [] {
    } else {
      EnrichedFields(task, mine[..|mine| - 1], key);
      EnrichedOnce(EnrichAll(task, mine[..|mine| - 1]), mine[|mine| - 1], key);
    }
  }

  lemma EnrichedOnce(task: Task, telemetry: Telemetry, key: string)
    ensures Get(EnrichTask(task, telemetry).fields, key) ==
      if Guarded(key) then OrElse(Get(telemetry.fields, key), Get(task.fields, key))
      else if key in telemetry.fields then telemetry.fields[key]
      else Get(task.fields, key)
  {
    DistinctKeys();
  }

  lemma DistinctKeys()
    ensures "name" != "state" && "name" != "runtime" && "state" != "runtime"
  {
    assert "name"[0] != "state"[0];
    assert "name"[0] != "runtime"[0];
    assert "state"[0] != "runtime"[0];
  }

  /** Updates that arrive before the snapshot or after it lead to the same map. */
  lemma {:induction false} BufferingIsTransparent(
      tasks: TaskMap, early: seq<Telemetry>, late: seq<Telemetry>, deleted: set<string>)
    ensures MergeAll(MergeAll(tasks, early, deleted), late, deleted) == MergeAll(tasks, early + late, deleted)
  {
    if late == [] {
      assert early + late == early;
    } else {
      assert (early + late)[..|early + late| - 1] == early + late[..|late| - 1];
      BufferingIsTransparent(tasks, early, late[..|late| - 1], deleted);
    }
  }

  /** A deletion learnt before the snapshot, by the deleted set, equals one learnt after it, by an update. */
  lemma DeletionOrder(records: seq<Task>, buffered: seq<Telemetry>, deleted: set<string>, gone: Telemetry)
    requires gone.deleted
    ensures MergeAll(Snapshot(records, deleted + {gone.id}), buffered, deleted + {gone.id})
         == MergeKnownTask(MergeAll(Snapshot(records, deleted), buffered, deleted), gone, deleted)
  {
    var more := deleted + {gone.id};
    SnapshotClean(records, deleted);
    SnapshotClean(records, more);
    var a := MergeAll(Snapshot(records, more), buffered, more);
    var b := MergeKnownTask(MergeAll(Snapshot(records, deleted), buffered, deleted), gone, deleted);
    forall id ensures At(a, id) == At(b, id) {
      ShownTask(Snapshot(records, more), buffered, more, id);
      ShownTask(Snapshot(records, deleted), buffered, deleted, id);
      SnapshotWithout(records, deleted, gone.id, id);
    }
    MapsEqual(a, b);
  }

  lemma {:induction false} SnapshotWithout(records: seq<Task>, deleted: set<string>, gone: string, id: string)
    ensures At(Snapshot(records, deleted + {gone}), id) ==
      if id == gone then None else At(Snapshot(records, deleted), id)
  {
    if records == [] {
    } else {
      SnapshotWithout(records[..|records| - 1], deleted, gone, id);
    }
  }

  lemma MapsEqual(a: TaskMap, b: TaskMap)
    requires forall id :: At(a, id) == At(b, id)
    ensures a == b
  {
    forall id ensures id in a <==> id in b {
      assert At(a, id) == At(b, id);
    }
    forall id | id in a ensures a[id] == b[id] {
      assert At(a, id) == At(b, id);
    }
  }

  /**
   * An update that carries everything an older one did makes the older one irrelevant, so a late
   * duplicate is harmless.
   */
  lemma FreshUpdateCovers(task: Task, older: Telemetry, newer: Telemetry)
    requires older.fields.Keys <= newer.fields.Keys
    requires forall key :: Guarded(key) ==> !Get(newer.fields, key).Nullish()
    ensures EnrichTask(EnrichTask(task, older), newer) == EnrichTask(task, newer)
  {
    assert Guarded("name") && Guarded("state") && Guarded("runtime");
    var a, b := EnrichTask(EnrichTask(task, older), newer).fields, EnrichTask(task, newer).fields;
    assert a.Keys == b.Keys;
    forall key | key in a ensures a[key] == b[key] {
      EnrichedOnce(EnrichTask(task, older), newer, key);
      EnrichedOnce(task, older, key);
      EnrichedOnce(task, newer, key);
    }
  }
}
