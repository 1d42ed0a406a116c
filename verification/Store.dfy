/**
 * The store object: rows are updated in place, one method per transaction.  Each
 * method is tied to the transaction's meaning in `Tables`.
 */
module StoreModel {
  import opened Basics
  import opened Lifecycle
  import opened Tables
  import opened Queueing

  /** What a caller of a guarded write sees: true, false, or an exception after a rollback. */
  datatype Reply = Applied | Declined | RolledBack {
    static function Of(outcome: Write): Reply {
      match outcome
      case Committed(_) => Applied
      case Refused => Declined
      case Raised => RolledBack
    }
  }

  class Store {
    var tasks: map<TaskId, TaskRow>
    var workers: map<WorkerId, WorkerRow>
    var log: seq<Event>
    var nextEvent: nat

    constructor ()
      ensures View() == EmptyDb()
    {
      tasks, workers, log, nextEvent := map[], map[], [], 0;
    }

    function View(): Db
      reads this
    {
      Db(tasks, workers, log, nextEvent)
    }

    method SetTaskState(t: TaskId, target: TaskState, expected: Option<set<TaskState>>, now: int)
      returns (reply: Reply)
      modifies this
      ensures var outcome := Tables.SetTaskState(old(View()), t, target, expected, now);
              reply == Reply.Of(outcome) && View() == outcome.After(old(View()))
      ensures var met := t in old(tasks) && (expected.None? || old(tasks)[t].state in expected.value);
        && (reply == Declined <==> !met)
        && (reply == RolledBack <==> met && !Legal(old(tasks)[t].state, target))
        && (reply == Applied ==> tasks == old(tasks)[t := old(tasks)[t].(state := target, updated := now)])
      ensures reply != Applied ==> tasks == old(tasks)
      ensures workers == old(workers) && log == old(log) && nextEvent == old(nextEvent)
    {
      if t !in tasks {
        return Declined;
      }
      var current := tasks[t].state;
      if expected.Some? && current !in expected.value {
        return Declined;
      }
      if !Legal(current, target) {
        return RolledBack;
      }
      tasks := tasks[t := tasks[t].(state := target, updated := now)];
      return Applied;
    }

    method ReleaseTaskClaim(t: TaskId, target: TaskState, now: int) returns (reply: Reply)
      modifies this
      ensures var outcome := Tables.ReleaseTaskClaim(old(View()), t, target, now);
              reply == Reply.Of(outcome) && View() == outcome.After(old(View()))
      ensures reply == Declined <==> t !in old(tasks) || old(tasks)[t].state != Dispatching
      ensures reply == Applied ==> tasks == old(tasks)[t := old(tasks)[t].(state := target, updated := now)]
      ensures reply != Applied ==> tasks == old(tasks)
      ensures workers == old(workers) && log == old(log) && nextEvent == old(nextEvent)
    {
      reply := SetTaskState(t, target, Some({Dispatching}), now);
    }

    /** Select the head of the queue under the remaining capacity, then reserve row by row. */
    method ClaimQueuedTasks(maxActive: int, now: int) returns (claimed: seq<TaskId>)
      modifies this
      ensures claimed == Claimable(old(View()), maxActive)
      ensures View() == Tables.ClaimQueuedTasks(old(View()), maxActive, now)
      ensures ClaimsHead(old(View()), View(), maxActive, now, claimed)
    {
      ClaimIsHead(View(), maxActive, now);
      claimed := [];
      if maxActive <= 0 {
        ReserveNone(View(), now);
        return;
      }
      var active := |ActiveWorkers(View())|;
      var dispatching := |DispatchingTasks(View())|;
      var capacity := maxActive - active - dispatching;
      if capacity <= 0 {
        ReserveNone(View(), now);
        return;
      }
      var queue := InOrder(tasks, QueuedTasks(View()));
      var rows := if capacity < |queue| then queue[..capacity] else queue;
      claimed := ReserveRows(rows, now) by {
        ClaimableRows(View(), maxActive);
      }
    }

    /** The update loop of a claim: every selected row is still QUEUED when its turn comes. */
    method ReserveRows(rows: seq<TaskId>, now: int) returns (claimed: seq<TaskId>)
      requires Distinct(rows) && Elements(rows) <= QueuedTasks(View())
      modifies this`tasks
      ensures claimed == rows
      ensures View() == Reserve(old(View()), Elements(rows), now)
    {
      ghost var before := View();
      claimed := [];
      ReserveNone(before, now);
      for i := 0 to |rows|
        invariant claimed == rows[..i]
        invariant View() == Reserve(before, Elements(rows[..i]), now)
      {
        assert rows[i] in Elements(rows) && rows[i] !in Elements(rows[..i]);
        ElementsSnoc(rows, i);
        if tasks[rows[i]].state == Queued {
          tasks := tasks[rows[i] := tasks[rows[i]].(state := Dispatching, updated := now)];
          claimed := claimed + [rows[i]];
        }
      }
      assert rows[..|rows|] == rows;
    }

    /** Expire every claim older than the cutoff, logging each one in id order. */
    method MarkStaleDispatchingLost(cutoff: int, now: int) returns (ids: seq<TaskId>)
      modifies this
      ensures ids == ById(StaleClaims(old(View()), cutoff))
      ensures View() == Tables.MarkStaleDispatchingLost(old(View()), cutoff, now)
      ensures ExpiresStale(old(View()), View(), cutoff, now, ids)
    {
      SweepExpires(View(), cutoff, now);
      var stale := StaleClaims(View(), cutoff);
      ids := ById(stale);
      ByIdSorts(stale);
      ExpireRows(ids, now);
      InsertAllFrame(old(View()), Expire(old(View()), stale, now), ids, DispatchLost);
    }

    method ExpireRows(ids: seq<TaskId>, now: int)
      requires Distinct(ids) && Elements(ids) <= DispatchingTasks(View())
      modifies this
      ensures View() ==
        InsertAll(old(View()), ids, DispatchLost).(tasks := Expire(old(View()), Elements(ids), now).tasks)
    {
      ghost var before := View();
      ExpireNone(before, now);
      for i := 0 to |ids|
        invariant workers == before.workers
        invariant tasks == Expire(before, Elements(ids[..i]), now).tasks
        invariant log == InsertAll(before, ids[..i], DispatchLost).log
        invariant nextEvent == InsertAll(before, ids[..i], DispatchLost).nextEvent
      {
        assert ids[i] in Elements(ids) && ids[i] !in Elements(ids[..i]);
        ElementsSnoc(ids, i);
        if tasks[ids[i]].state == Dispatching {
          tasks := tasks[ids[i] := tasks[ids[i]].(state := Lost, updated := now)];
        }
        assert ids[..i + 1][..i] == ids[..i];
        log, nextEvent := log + [Event(nextEvent, ids[i], DispatchLost)], nextEvent + 1;
      }
      assert ids[..|ids|] == ids;
    }

    method ActivateWorker(t: TaskId, w: WorkerId, row: WorkerRow, now: int) returns (reply: Reply)
      modifies this
      ensures var outcome := Tables.ActivateWorker(old(View()), t, w, row, now);
              reply == Reply.Of(outcome) && View() == outcome.After(old(View()))
      ensures reply == Declined <==> t !in old(tasks) || old(tasks)[t].state != Dispatching
      ensures reply == RolledBack <==> t in old(tasks) && old(tasks)[t].state == Dispatching && w in old(workers)
      ensures reply == Applied ==>
        && workers == old(workers)[w := row]
        && tasks == old(tasks)[t := old(tasks)[t].(state := Running, updated := now)]
      ensures reply != Applied ==> tasks == old(tasks) && workers == old(workers)
      ensures log == old(log) && nextEvent == old(nextEvent)
    {
      if t !in tasks || tasks[t].state != Dispatching {
        return Declined;
      }
      if w in workers {
        return RolledBack;
      }
      workers := workers[w := row];
      tasks := tasks[t := tasks[t].(state := Running, updated := now)];
      return Applied;
    }

    method EndWorker(w: WorkerId, now: int)
      modifies this
      ensures View() == Tables.EndWorker(old(View()), w, now)
      ensures workers.Keys == old(workers).Keys && forall x :: x in workers && x != w ==> workers[x] == old(workers)[x]
      ensures w in workers ==>
        workers[w] == old(workers)[w].(
          ended := if old(workers)[w].ended.Some? then old(workers)[w].ended else Some(now))
      ensures tasks == old(tasks) && log == old(log) && nextEvent == old(nextEvent)
    {
      if w in workers && workers[w].ended.None? {
        workers := workers[w := workers[w].(ended := Some(now))];
      }
    }

    method FinishWorker(t: TaskId, w: Option<WorkerId>, terminal: TaskState, event: Option<EventKind>, now: int)
      returns (reply: Reply)
      modifies this
      ensures var outcome := Tables.FinishWorker(old(View()), t, w, terminal, event, now);
              reply == Reply.Of(outcome) && View() == outcome.After(old(View()))
      ensures reply == Declined <==> t !in old(tasks)
      ensures reply == RolledBack <==> t in old(tasks) && !Legal(old(tasks)[t].state, terminal)
      ensures reply == Applied ==>
        && tasks == old(tasks)[t := old(tasks)[t].(state := terminal, updated := now)]
        && workers.Keys == old(workers).Keys
        && (forall x :: x in workers && w != Some(x) ==> workers[x] == old(workers)[x])
        && (w.Some? && w.value in workers && old(workers)[w.value].ended.None? ==>
              workers[w.value] == old(workers)[w.value].(ended := Some(now)))
        && (w.Some? && w.value in workers && old(workers)[w.value].ended.Some? ==>
              workers[w.value] == old(workers)[w.value])
        && log == old(log) + (if event.Some? then [Event(old(nextEvent), t, event.value)] else [])
      ensures reply != Applied ==> View() == old(View())
    {
      if t !in tasks {
        return Declined;
      }
      if !Legal(tasks[t].state, terminal) {
        return RolledBack;
      }
      tasks := tasks[t := tasks[t].(state := terminal, updated := now)];
      if w.Some? {
        EndWorker(w.value, now);
      }
      if event.Some? {
        log, nextEvent := log + [Event(nextEvent, t, event.value)], nextEvent + 1;
      }
      return Applied;
    }

    method DeleteTask(t: TaskId)
      modifies this
      ensures View() == Tables.DeleteTask(old(View()), t)
      ensures tasks == old(tasks) - {t} && nextEvent == old(nextEvent)
      ensures forall w :: w in workers <==> w in old(workers) && old(workers)[w].task != t
      ensures forall w :: w in workers ==> workers[w] == old(workers)[w]
      ensures forall e :: e in log <==> e in old(log) && e.task != t
    {
      WithoutHolds(log, t);
      log := Without(log, t);
      workers := map w | w in workers && workers[w].task != t :: workers[w];
      tasks := tasks - {t};
    }

    /** Append, then prune the task's status history down to the newest `retention`. */
    method AppendEvent(t: TaskId, kind: EventKind, retention: int) returns (reply: Reply)
      modifies this
      ensures var outcome := Tables.AppendEvent(old(View()), t, kind, retention);
              reply == Reply.Of(outcome) && View() == outcome.After(old(View()))
      ensures reply == RolledBack <==> t !in old(tasks)
      ensures reply == RolledBack || reply == Applied
      ensures tasks == old(tasks) && workers == old(workers)
      ensures reply == Applied && !kind.Status? ==> log == old(log) + [Event(old(nextEvent), t, kind)]
      ensures nextEvent == old(nextEvent) + if reply == Applied then 1 else 0
    {
      if t !in tasks {
        return RolledBack;
      }
      log, nextEvent := log + [Event(nextEvent, t, kind)], nextEvent + 1;
      if kind.Status? {
        var keep := if retention < 1 then 1 else retention;
        log := DropStatus(log, t, RetentionCutoff(log, t, keep));
      }
      return Applied;
    }

    /** The un-ended worker of a task that started last, if there is one. */
    method ActiveWorkerId(t: TaskId) returns (w: Option<WorkerId>)
      ensures w.None? <==> forall x :: x in ActiveWorkers(View()) ==> workers[x].task != t
      ensures w.Some? ==>
        && w.value in ActiveWorkers(View()) && workers[w.value].task == t
        && forall x :: x in ActiveWorkers(View()) && workers[x].task == t ==>
             workers[x].started <= workers[w.value].started
    {
      w := None;
      var rest := ActiveWorkers(View());
      ghost var seen: set<WorkerId> := {};
      while rest != {}
        invariant rest + seen == ActiveWorkers(View())
        invariant w.None? <==> forall x :: x in seen ==> workers[x].task != t
        invariant w.Some? ==>
          && w.value in seen && workers[w.value].task == t
          && forall x :: x in seen && workers[x].task == t ==> workers[x].started <= workers[w.value].started
        decreases |rest|
      {
        var x :| x in rest;
        rest, seen := rest - {x}, seen + {x};
        if workers[x].task == t && (w.None? || workers[w.value].started < workers[x].started) {
          w := Some(x);
        }
      }
    }
  }

  // --- what the transactions over many rows do, row by row ---

  /**
   * A claim takes exactly the queued tasks with fewer tasks ahead of them than the limit
   * leaves room for, lists them in queue order, stamps them, and touches nothing else.
   */
  ghost predicate ClaimsHead(db: Db, db': Db, maxActive: int, now: int, claimed: seq<TaskId>) {
    && (forall t :: t in db.tasks ==>
          (t in claimed <==> db.tasks[t].state == Queued && Rank(db, t) + Load(db) < maxActive))
    && (forall t :: t in claimed ==> t in db.tasks)
    && (forall i, j :: 0 <= i < j < |claimed| ==> Before(db.tasks, claimed[i], claimed[j]))
    && db'.tasks.Keys == db.tasks.Keys
    && (forall t :: t in db.tasks ==>
          db'.tasks[t] == if t in claimed then db.tasks[t].(state := Dispatching, updated := now) else db.tasks[t])
    && db'.workers == db.workers && db'.log == db.log && db'.nextEvent == db.nextEvent
  }

  lemma ClaimIsHead(db: Db, maxActive: int, now: int)
    ensures ClaimsHead(db, Tables.ClaimQueuedTasks(db, maxActive, now), maxActive, now, Claimable(db, maxActive))
  {
    var claimed := Claimable(db, maxActive);
    ClaimableRows(db, maxActive);
    ClaimedInOrder(db, maxActive);
    forall t | t in db.tasks
      ensures t in claimed <==> db.tasks[t].state == Queued && Rank(db, t) + Load(db) < maxActive
    {
      ClaimedIffInReach(db, maxActive, t);
    }
    forall t | t in claimed ensures t in db.tasks {
      assert t in Elements(claimed);
    }
  }

  /**
   * A sweep loses exactly the tasks reserved before the cutoff, lists them in id order,
   * logs one event for each in that order, and touches nothing else.
   */
  ghost predicate ExpiresStale(db: Db, db': Db, cutoff: int, now: int, ids: seq<TaskId>) {
    && (forall t :: t in ids <==> t in db.tasks && db.tasks[t].state == Dispatching && db.tasks[t].updated < cutoff)
    && (forall i, j :: 0 <= i < j < |ids| ==> ids[i] < ids[j])
    && db'.tasks.Keys == db.tasks.Keys && db'.workers == db.workers
    && (forall t :: t in db.tasks ==>
          db'.tasks[t] == if t in ids then db.tasks[t].(state := Lost, updated := now) else db.tasks[t])
    && |db'.log| == |db.log| + |ids| && db'.log[..|db.log|] == db.log
    && (forall i :: 0 <= i < |ids| ==> db'.log[|db.log| + i] == Event(db.nextEvent + i, ids[i], DispatchLost))
  }

  lemma SweepExpires(db: Db, cutoff: int, now: int)
    ensures ExpiresStale(
      db, Tables.MarkStaleDispatchingLost(db, cutoff, now), cutoff, now, ById(StaleClaims(db, cutoff)))
  {
    var stale := StaleClaims(db, cutoff);
    var ids := ById(stale);
    ByIdSorts(stale);
    forall t ensures t in ids <==> t in stale {
      assert t in ids <==> t in Elements(ids);
    }
    InsertAllLog(Expire(db, stale, now), ids, DispatchLost);
  }

  lemma {:induction false} InsertAllLog(db: Db, ids: seq<TaskId>, kind: EventKind)
    ensures var db' := InsertAll(db, ids, kind);
      && |db'.log| == |db.log| + |ids| && db'.log[..|db.log|] == db.log && db'.nextEvent == db.nextEvent + |ids|
      && (forall i :: 0 <= i < |ids| ==> db'.log[|db.log| + i] == Event(db.nextEvent + i, ids[i], kind))
  {
    if ids == [] {
    } else {
      InsertAllLog(db, ids[..|ids| - 1], kind);
    }
  }

  lemma {:induction false} WithoutHolds(log: seq<Event>, t: TaskId)
    ensures forall e :: e in Without(log, t) <==> e in log && e.task != t
  {
    if log == [] {
    } else {
      WithoutHolds(log[..|log| - 1], t);
      assert log == log[..|log| - 1] + [log[|log| - 1]];
    }
  }

  lemma ReserveNone(db: Db, now: int)
    ensures Reserve(db, Elements<TaskId>([]), now) == db
  {
    assert Reserve(db, Elements<TaskId>([]), now).tasks == db.tasks;
  }

  lemma ExpireNone(db: Db, now: int)
    ensures Expire(db, Elements<TaskId>([]), now) == db
  {
    assert Expire(db, Elements<TaskId>([]), now).tasks == db.tasks;
  }

  /** Logging commutes with the task updates that precede it. */
  lemma {:induction false} InsertAllFrame(a: Db, b: Db, ids: seq<TaskId>, kind: EventKind)
    requires a.workers == b.workers && a.log == b.log && a.nextEvent == b.nextEvent
    ensures InsertAll(b, ids, kind) == InsertAll(a, ids, kind).(tasks := b.tasks)
  {
    if ids == [] {
    } else {
      InsertAllFrame(a, b, ids[..|ids| - 1], kind);
    }
  }
}
