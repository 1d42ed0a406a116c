/**
 * The control-plane database as a value, and the meaning of each store
 * transaction as a function on it.  Every transaction runs under one
 * BEGIN/COMMIT scope, so it is a single function application here; an exception
 * rolls the whole transaction back and is the `Raised` result.
 *
 * Identifiers, GPU UUIDs and timestamps are natural numbers or integers: only
 * equality and order of them are used.
 */
module Tables {
  import opened Basics
  import opened Lifecycle

  type WorkerId = nat
  type Uuid = nat

  datatype Lease = CpuLease | GpuLease(uuid: Uuid)

  /** `need` is the resource requirement; `gated` says an evaluator is configured. */
  datatype TaskRow = TaskRow(state: TaskState, updated: int, gated: bool, need: Option<Lease>)

  datatype WorkerRow = WorkerRow(task: TaskId, lease: Option<Lease>, started: int, ended: Option<int>)

  datatype EventKind = Status(record: nat) | Evaluation(passed: bool) | DispatchLost | Remark(code: nat)

  datatype Event = Event(id: nat, task: TaskId, kind: EventKind)

  datatype Db = Db(
    tasks: map<TaskId, TaskRow>,
    workers: map<WorkerId, WorkerRow>,
    log: seq<Event>,
    nextEvent: nat)

  /** Result of a guarded write: committed, declined without effect, or rolled back by an exception. */
  datatype Write = Committed(db: Db) | Refused | Raised {
    function After(before: Db): Db {
      if Committed? then db else before
    }
  }

  function EmptyDb(): Db {
    Db(map[], map[], [], 0)
  }

  predicate StateIs(db: Db, t: TaskId, state: TaskState) {
    t in db.tasks && db.tasks[t].state == state
  }

  predicate IsLive(db: Db, t: TaskId) {
    t in db.tasks && db.tasks[t].state.Live()
  }

  function WithState(db: Db, t: TaskId, state: TaskState, now: int): Db
    requires t in db.tasks
  {
    db.(tasks := db.tasks[t := db.tasks[t].(state := state, updated := now)])
  }

  function SetTaskState(db: Db, t: TaskId, target: TaskState, expected: Option<set<TaskState>>, now: int): Write {
    if t !in db.tasks then Refused
    else
      var current := db.tasks[t].state;
      if expected.Some? && current !in expected.value then Refused
      else if !Legal(current, target) then Raised
      else Committed(WithState(db, t, target, now))
  }

  function ReleaseTaskClaim(db: Db, t: TaskId, target: TaskState, now: int): Write {
    SetTaskState(db, t, target, Some({Dispatching}), now)
  }

  // --- capacity and the queue ---

  function ActiveWorkers(db: Db): set<WorkerId> {
    set w | w in db.workers && db.workers[w].ended.None?
  }

  function DispatchingTasks(db: Db): set<TaskId> {
    set t | t in db.tasks && db.tasks[t].state == Dispatching
  }

  function QueuedTasks(db: Db): set<TaskId> {
    set t | t in db.tasks && db.tasks[t].state == Queued
  }

  /** Queue order: oldest `updated` first, ties broken by id. */
  predicate Before(tasks: map<TaskId, TaskRow>, a: TaskId, b: TaskId) {
    && a in tasks && b in tasks
    && (tasks[a].updated < tasks[b].updated || (tasks[a].updated == tasks[b].updated && a < b))
  }

  predicate IsFirst(tasks: map<TaskId, TaskRow>, q: set<TaskId>, f: TaskId) {
    f in q && forall x :: x in q && x != f ==> Before(tasks, f, x)
  }

  lemma {:induction false} FirstExists(tasks: map<TaskId, TaskRow>, q: set<TaskId>)
    requires q != {} && q <= tasks.Keys
    ensures exists f :: IsFirst(tasks, q, f)
    decreases |q|
  {
    var t :| t in q;
    var others := q - {t};
    if others == {} {
      assert q == {t};
      assert IsFirst(tasks, q, t);
    } else {
      FirstExists(tasks, others);
      var f :| IsFirst(tasks, others, f);
      var g := if Before(tasks, f, t) then f else t;
      forall x | x in q && x != g ensures Before(tasks, g, x) {
        assert x == t || x in others;
      }
      assert IsFirst(tasks, q, g);
    }
  }

  function First(tasks: map<TaskId, TaskRow>, q: set<TaskId>): (f: TaskId)
    requires q != {} && q <= tasks.Keys
    ensures IsFirst(tasks, q, f)
  {
    FirstExists(tasks, q);
    var f :| IsFirst(tasks, q, f);
    f
  }

  /** `SELECT ... ORDER BY updated_at, id` over a set of task ids. */
  function InOrder(tasks: map<TaskId, TaskRow>, q: set<TaskId>): (r: seq<TaskId>)
    requires q <= tasks.Keys
    decreases |q|
  {
    if q == {} then []
    else
      var f := First(tasks, q);
      [f] + InOrder(tasks, q - {f})
  }

  predicate Ordered(tasks: map<TaskId, TaskRow>, r: seq<TaskId>) {
    forall i, j :: 0 <= i < j < |r| ==> Before(tasks, r[i], r[j])
  }

  /** The listing holds each id once and is sorted by queue order. */
  lemma {:induction false} InOrderSorts(tasks: map<TaskId, TaskRow>, q: set<TaskId>)
    requires q <= tasks.Keys
    ensures Elements(InOrder(tasks, q)) == q
    ensures Distinct(InOrder(tasks, q))
    ensures Ordered(tasks, InOrder(tasks, q))
    decreases |q|
  {
    if q == {} {
    } else {
      var f := First(tasks, q);
      var rest := InOrder(tasks, q - {f});
      InOrderSorts(tasks, q - {f});
      ElementsCons(f, rest);
      OrderedCons(tasks, f, rest);
    }
  }

  lemma OrderedCons(tasks: map<TaskId, TaskRow>, f: TaskId, rest: seq<TaskId>)
    requires Ordered(tasks, rest) && forall x :: x in Elements(rest) ==> Before(tasks, f, x)
    ensures Ordered(tasks, [f] + rest)
  {
    var r := [f] + rest;
    forall i, j | 0 <= i < j < |r| ensures Before(tasks, r[i], r[j]) {
      assert r[j] == rest[j - 1] && r[j] in Elements(rest);
      if i > 0 { assert r[i] == rest[i - 1]; }
    }
  }

  function Capacity(db: Db, maxActive: int): int {
    maxActive - |ActiveWorkers(db)| - |DispatchingTasks(db)|
  }

  /** The rows one claim takes: the head of the queue, as far as capacity goes. */
  function Claimable(db: Db, maxActive: int): seq<TaskId> {
    var queue := InOrder(db.tasks, QueuedTasks(db));
    var room := Capacity(db, maxActive);
    if maxActive <= 0 || room <= 0 then []
    else if room < |queue| then queue[..room] else queue
  }

  function Reserve(db: Db, ids: set<TaskId>, now: int): Db {
    db.(tasks := map t | t in db.tasks ::
      if t in ids then db.tasks[t].(state := Dispatching, updated := now) else db.tasks[t])
  }

  function ClaimQueuedTasks(db: Db, maxActive: int, now: int): Db {
    Reserve(db, Elements(Claimable(db, maxActive)), now)
  }

  function StaleClaims(db: Db, cutoff: int): set<TaskId> {
    set t | t in db.tasks && db.tasks[t].state == Dispatching && db.tasks[t].updated < cutoff
  }

  function Expire(db: Db, ids: set<TaskId>, now: int): Db {
    db.(tasks := map t | t in db.tasks ::
      if t in ids then db.tasks[t].(state := Lost, updated := now) else db.tasks[t])
  }

  /** Append one event, numbering it as AUTOINCREMENT does. */
  function Insert(db: Db, t: TaskId, kind: EventKind): Db {
    db.(log := db.log + [Event(db.nextEvent, t, kind)], nextEvent := db.nextEvent + 1)
  }

  function InsertAll(db: Db, ids: seq<TaskId>, kind: EventKind): (r: Db)
    ensures r.tasks == db.tasks && r.workers == db.workers
  {
    if ids == [] then db
    else Insert(InsertAll(db, ids[..|ids| - 1], kind), ids[|ids| - 1], kind)
  }

  /** `ORDER BY id`: queue order among rows that all carry the same stamp. */
  function ById(q: set<TaskId>): seq<TaskId> {
    InOrder(SameStamp(q), q)
  }

  function SameStamp(q: set<TaskId>): map<TaskId, TaskRow> {
    map t | t in q :: TaskRow(Dispatching, 0, false, None)
  }

  lemma ByIdSorts(q: set<TaskId>)
    ensures Elements(ById(q)) == q && Distinct(ById(q))
    ensures forall i, j :: 0 <= i < j < |ById(q)| ==> ById(q)[i] < ById(q)[j]
  {
    InOrderSorts(SameStamp(q), q);
  }

  function MarkStaleDispatchingLost(db: Db, cutoff: int, now: int): Db {
    var stale := StaleClaims(db, cutoff);
    InsertAll(Expire(db, stale, now), ById(stale), DispatchLost)
  }

  // --- worker rows ---

  function ActivateWorker(db: Db, t: TaskId, w: WorkerId, row: WorkerRow, now: int): Write {
    if t !in db.tasks || db.tasks[t].state != Dispatching then Refused
    else if w in db.workers then Raised
    else Committed(WithState(db, t, Running, now).(workers := db.workers[w := row]))
  }

  function EndWorker(db: Db, w: WorkerId, now: int): Db {
    if w in db.workers && db.workers[w].ended.None? then
      db.(workers := db.workers[w := db.workers[w].(ended := Some(now))])
    else db
  }

  function FinishWorker(
      db: Db, t: TaskId, w: Option<WorkerId>, terminal: TaskState, event: Option<EventKind>, now: int): Write {
    if t !in db.tasks then Refused
    else if !Legal(db.tasks[t].state, terminal) then Raised
    else
      var moved := WithState(db, t, terminal, now);
      var ended := if w.Some? then EndWorker(moved, w.value, now) else moved;
      Committed(if event.Some? then Insert(ended, t, event.value) else ended)
  }

  function DeleteTask(db: Db, t: TaskId): Db {
    Db(db.tasks - {t},
       map w | w in db.workers && db.workers[w].task != t :: db.workers[w],
       Without(db.log, t),
       db.nextEvent)
  }

  function CreateTask(db: Db, t: TaskId, row: TaskRow): Write {
    if t in db.tasks then Raised else Committed(db.(tasks := db.tasks[t := row]))
  }

  // --- the event log ---

  function Without(log: seq<Event>, t: TaskId): (r: seq<Event>)
  {
    if log == [] then []
    else
      var front := Without(log[..|log| - 1], t);
      if log[|log| - 1].task == t then front else front + [log[|log| - 1]]
  }

  predicate IsStatusOf(e: Event, t: TaskId) {
    e.task == t && e.kind.Status?
  }

  /** The status events of one task, oldest first. */
  function StatusEvents(log: seq<Event>, t: TaskId): (r: seq<Event>)
  {
    if log == [] then []
    else
      var front := StatusEvents(log[..|log| - 1], t);
      if IsStatusOf(log[|log| - 1], t) then front + [log[|log| - 1]] else front
  }

  /** `DELETE FROM event WHERE task_id=t AND type='status' AND id <= cutoff`. */
  function DropStatus(log: seq<Event>, t: TaskId, cutoff: int): (r: seq<Event>)
  {
    if log == [] then []
    else
      var front := DropStatus(log[..|log| - 1], t, cutoff);
      var e := log[|log| - 1];
      if IsStatusOf(e, t) && e.id <= cutoff then front else front + [e]
  }

  /** Id of the newest status event beyond the retained ones, or -1 when none is. */
  function RetentionCutoff(log: seq<Event>, t: TaskId, retention: nat): int {
    var history := StatusEvents(log, t);
    if retention < |history| then history[|history| - 1 - retention].id else -1
  }

  function AppendEvent(db: Db, t: TaskId, kind: EventKind, retention: int): Write {
    if t !in db.tasks then Raised
    else
      var grown := Insert(db, t, kind);
      if !kind.Status? then Committed(grown)
      else
        var keep := if retention < 1 then 1 else retention;
        Committed(grown.(log := DropStatus(grown.log, t, RetentionCutoff(grown.log, t, keep))))
  }

  /** Outcomes of all evaluation events of one task, oldest first. */
  function Evaluations(log: seq<Event>, t: TaskId): (r: seq<bool>)
  {
    if log == [] then []
    else
      var front := Evaluations(log[..|log| - 1], t);
      var e := log[|log| - 1];
      if e.task == t && e.kind.Evaluation? then front + [e.kind.passed] else front
  }
}
