/**
 * Capacity and fairness of the store transactions, stated on the database alone:
 * whoever calls them, in whatever order.
 */
module Queueing {
  import opened Basics
  import opened Lifecycle
  import opened Tables

  /** What counts against `max_active`: un-ended workers plus reserved tasks. */
  function Load(db: Db): nat {
    |ActiveWorkers(db)| + |DispatchingTasks(db)|
  }

  /** The claimed rows are distinct queued tasks, within the room. */
  lemma ClaimableRows(db: Db, maxActive: int)
    ensures Distinct(Claimable(db, maxActive))
    ensures Elements(Claimable(db, maxActive)) <= QueuedTasks(db)
    ensures |Elements(Claimable(db, maxActive))| == |Claimable(db, maxActive)|
    ensures Claimable(db, maxActive) != [] ==> |Claimable(db, maxActive)| <= Capacity(db, maxActive)
  {
    var queue := InOrder(db.tasks, QueuedTasks(db));
    var rows := Claimable(db, maxActive);
    InOrderSorts(db.tasks, QueuedTasks(db));
    assert rows <= queue;
    forall x | x in Elements(rows) ensures x in QueuedTasks(db) {
      var i :| 0 <= i < |rows| && rows[i] == x;
      assert queue[i] in Elements(queue);
    }
    DistinctCard(rows);
  }

  lemma ReserveSets(db: Db, ids: set<TaskId>, now: int)
    requires ids <= QueuedTasks(db)
    ensures ActiveWorkers(Reserve(db, ids, now)) == ActiveWorkers(db)
    ensures DispatchingTasks(Reserve(db, ids, now)) == DispatchingTasks(db) + ids
    ensures QueuedTasks(Reserve(db, ids, now)) == QueuedTasks(db) - ids
  {
  }

  /** A claim adds exactly the rows it returns, and never more than the room that was left. */
  lemma ClaimLoad(db: Db, maxActive: int, now: int)
    ensures Load(ClaimQueuedTasks(db, maxActive, now)) == Load(db) + |Claimable(db, maxActive)|
    ensures Claimable(db, maxActive) != [] ==> Load(ClaimQueuedTasks(db, maxActive, now)) <= maxActive
  {
    var ids := Elements(Claimable(db, maxActive));
    ClaimableRows(db, maxActive);
    ReserveSets(db, ids, now);
    assert DispatchingTasks(db) !! ids;
  }

  /** Activation moves one unit from the reserved side to the active side. */
  lemma ActivateLoad(db: Db, t: TaskId, w: WorkerId, row: WorkerRow, now: int)
    requires row.ended.None?
    ensures Load(ActivateWorker(db, t, w, row, now).After(db)) == Load(db)
  {
    var after := ActivateWorker(db, t, w, row, now);
    if after.Committed? {
      assert ActiveWorkers(after.db) == ActiveWorkers(db) + {w};
      assert DispatchingTasks(after.db) == DispatchingTasks(db) - {t};
    }
  }

  /** Shrinking either side shrinks the load. */
  lemma LoadMonotone(db: Db, db': Db)
    requires ActiveWorkers(db') <= ActiveWorkers(db)
    requires DispatchingTasks(db') <= DispatchingTasks(db)
    ensures Load(db') <= Load(db)
  {
    SubsetCard(ActiveWorkers(db'), ActiveWorkers(db));
    SubsetCard(DispatchingTasks(db'), DispatchingTasks(db));
  }

  // --- queue position ---

  /** The queued tasks that a claim would take before `t`. */
  function Ahead(db: Db, t: TaskId): set<TaskId>
    requires t in db.tasks
  {
    set x | x in QueuedTasks(db) && Before(db.tasks, x, t)
  }

  function Rank(db: Db, t: TaskId): nat
    requires t in db.tasks
  {
    |Ahead(db, t)|
  }

  lemma RankIsIndex(db: Db, i: nat)
    requires i < |InOrder(db.tasks, QueuedTasks(db))|
    ensures InOrder(db.tasks, QueuedTasks(db))[i] in db.tasks
    ensures Rank(db, InOrder(db.tasks, QueuedTasks(db))[i]) == i
    ensures Ahead(db, InOrder(db.tasks, QueuedTasks(db))[i]) == Elements(InOrder(db.tasks, QueuedTasks(db))[..i])
  {
    var queue := InOrder(db.tasks, QueuedTasks(db));
    var t := queue[i];
    InOrderSorts(db.tasks, QueuedTasks(db));
    assert t in Elements(queue);
    var head := queue[..i];
    forall x | x in Ahead(db, t) ensures x in Elements(head) {
      assert x in Elements(queue);
      var j :| 0 <= j < |queue| && queue[j] == x;
      assert j < i;
      assert head[j] == x;
    }
    forall x | x in Elements(head) ensures x in Ahead(db, t) {
      var j :| 0 <= j < i && queue[j] == x;
      assert x in Elements(queue);
    }
    assert Ahead(db, t) == Elements(head);
    assert Distinct(head);
    DistinctCard(head);
  }

  /** A queued task is taken exactly when its rank and the load together are below the limit. */
  lemma ClaimedIffInReach(db: Db, maxActive: int, t: TaskId)
    requires t in db.tasks
    ensures t in Elements(Claimable(db, maxActive)) <==>
      db.tasks[t].state == Queued && Rank(db, t) + Load(db) < maxActive
  {
    var queue := InOrder(db.tasks, QueuedTasks(db));
    var rows := Claimable(db, maxActive);
    InOrderSorts(db.tasks, QueuedTasks(db));
    if t in Elements(rows) {
      var i :| 0 <= i < |rows| && rows[i] == t;
      assert queue[i] == t;
      assert t in Elements(queue);
      RankIsIndex(db, i);
    }
    if db.tasks[t].state == Queued && Rank(db, t) + Load(db) < maxActive {
      assert t in Elements(queue);
      var i :| 0 <= i < |queue| && queue[i] == t;
      RankIsIndex(db, i);
      assert rows[i] == t;
    }
  }

  /** A claim takes as many queued tasks as there are, or as the limit leaves room for. */
  lemma ClaimedCount(db: Db, maxActive: int)
    ensures |Claimable(db, maxActive)| ==
      if maxActive <= 0 || Load(db) >= maxActive then 0
      else if |QueuedTasks(db)| < maxActive - Load(db) then |QueuedTasks(db)|
      else maxActive - Load(db)
  {
    var queue := InOrder(db.tasks, QueuedTasks(db));
    InOrderSorts(db.tasks, QueuedTasks(db));
    DistinctCard(queue);
  }

  /** No room is wasted: after a claim nothing is queued any more, or the limit is reached. */
  lemma ClaimConservesWork(db: Db, maxActive: int, now: int)
    requires maxActive > 0
    ensures var db' := ClaimQueuedTasks(db, maxActive, now);
      QueuedTasks(db') == {} || Load(db') >= maxActive
  {
    var ids := Elements(Claimable(db, maxActive));
    ClaimableRows(db, maxActive);
    ReserveSets(db, ids, now);
    ClaimedCount(db, maxActive);
    ClaimLoad(db, maxActive, now);
    if |ids| == |QueuedTasks(db)| {
      SameSizeSubset(ids, QueuedTasks(db));
    }
  }

  lemma SameSizeSubset(a: set<TaskId>, b: set<TaskId>)
    requires a <= b && |a| == |b|
    ensures a == b
  {
    assert |b - a| == |b| - |a|;
  }

  /** The claimed rows stand in queue order. */
  lemma ClaimedInOrder(db: Db, maxActive: int)
    ensures Ordered(db.tasks, Claimable(db, maxActive))
  {
    InOrderSorts(db.tasks, QueuedTasks(db));
  }

  /** Everything a claim takes was ahead of any queued task it leaves behind. */
  lemma TakenWasAhead(db: Db, maxActive: int, t: TaskId)
    requires t in QueuedTasks(db) && t !in Elements(Claimable(db, maxActive))
    ensures Elements(Claimable(db, maxActive)) <= Ahead(db, t)
  {
    var queue := InOrder(db.tasks, QueuedTasks(db));
    var rows := Claimable(db, maxActive);
    InOrderSorts(db.tasks, QueuedTasks(db));
    assert t in Elements(queue);
    var j :| 0 <= j < |queue| && queue[j] == t;
    RankIsIndex(db, j);
    PrefixWithout(queue, rows, j);
  }

  lemma PrefixWithout(queue: seq<TaskId>, rows: seq<TaskId>, j: nat)
    requires j < |queue| && rows <= queue && queue[j] !in Elements(rows)
    ensures Elements(rows) <= Elements(queue[..j])
  {
    assert forall i :: 0 <= i < |rows| ==> rows[i] in Elements(rows);
    forall x | x in Elements(rows) ensures x in Elements(queue[..j]) {
      var i :| 0 <= i < |rows| && rows[i] == x;
      assert queue[..j][i] == x;
    }
  }

  /** Passing a task over still moves it forward by everything that was taken. */
  lemma ClaimAdvances(db: Db, maxActive: int, now: int, t: TaskId)
    requires t in QueuedTasks(db) && t !in Elements(Claimable(db, maxActive))
    ensures StateIs(ClaimQueuedTasks(db, maxActive, now), t, Queued)
    ensures Rank(ClaimQueuedTasks(db, maxActive, now), t) == Rank(db, t) - |Claimable(db, maxActive)|
  {
    var taken := Elements(Claimable(db, maxActive));
    var db' := ClaimQueuedTasks(db, maxActive, now);
    ClaimableRows(db, maxActive);
    TakenWasAhead(db, maxActive, t);
    ReserveSets(db, taken, now);
    assert Ahead(db', t) == Ahead(db, t) - taken;
  }
}
