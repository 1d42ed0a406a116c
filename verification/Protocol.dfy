/**
 * The dispatch protocol as a state machine.  A state holds the database, the
 * in-memory tables of one API process and the set of external workers that are
 * running.  One action is one store transaction or one step on a locked
 * in-memory table; adapters answer nondeterministically through the action's
 * arguments.  `Apply` is total: an action that is not enabled changes nothing,
 * so every list of actions is a run and every interleaving is a list.
 */
module Protocol {
  import opened Basics
  import opened Lifecycle
  import opened Tables
  import opened Queueing

  type TickId = nat

  /**
   * `faults` lets a store access fail (the transaction rolls back and the caller
   * sees an exception); `restarts` lets the API process die and
   * come back with empty memory.
   */
  datatype Config = Config(maxActive: int, retention: int, faults: bool, restarts: bool)

  datatype Outcome = Activated | Compensated | Unsettled

  /** Progress of one claimed task through a scheduler tick. */
  datatype Pc =
    | Claimed
    | Leased(lease: Option<Lease>)
    | Started(lease: Option<Lease>)
    | Registered(lease: Option<Lease>)
    | Failing(lease: Option<Lease>, registered: bool, retryable: bool)
    | Cleaning(lease: Option<Lease>, registered: bool, stopFailed: bool, retryable: bool)
    | Settling(stopFailed: bool, retryable: bool)
    | Finished(outcome: Outcome)
  {
    function Holding(): Option<Lease> {
      if Leased? || Started? || Registered? || Failing? || Cleaning? then lease else None
    }
  }

  /**
   * A dispatch attempt is named by the worker id that was drawn for it.  `need` is
   * the claimed row's requirement; `known` says a handle was registered for it.
   */
  datatype Attempt = Attempt(task: TaskId, need: Option<Lease>, tick: TickId, known: bool, pc: Pc)

  /** Progress of one call of `retire` past its entry check. */
  datatype RetirePc =
    | Begun
    | WorkerRead(row: Option<WorkerRow>)
    | TaskRead(row: Option<WorkerRow>, task: TaskRow)
    | Stopped(row: Option<WorkerRow>, task: TaskRow)
    | Judged(row: Option<WorkerRow>, task: TaskRow, verdict: Option<TaskState>, event: Option<EventKind>)
    | Retired(row: Option<WorkerRow>, task: TaskRow)
    | Dropping
    | Exiting
  {
    /** The worker row this call has in hand, if it has read one. */
    function Row(): Option<WorkerRow> {
      if WorkerRead? || TaskRead? || Stopped? || Judged? || Retired? then row else None
    }

    predicate Uncommitted() {
      TaskRead? || Stopped? || Judged?
    }
  }

  datatype Retirement = Retirement(
    worker: Option<WorkerId>,
    target: TaskState,
    stop: bool,
    handle: Option<WorkerId>,
    pc: RetirePc)

  datatype State = State(
    db: Db,
    held: map<Uuid, WorkerId>,
    handles: map<TaskId, WorkerId>,
    retirements: map<TaskId, Retirement>,
    live: set<WorkerId>,
    attempts: map<WorkerId, Attempt>,
    owner: map<TaskId, WorkerId>,
    started: map<TickId, nat>,
    used: set<TaskId>)

  datatype Steering = MarkStuck | Nudge | Pause | Resume {
    function Target(): TaskState {
      match this
      case MarkStuck => Stuck
      case Nudge => Running
      case Pause => Paused
      case Resume => Running
    }

    function Expected(): set<TaskState> {
      match this
      case MarkStuck => {Running, Paused, Stuck}
      case Nudge => {Stuck}
      case Pause => {Running}
      case Resume => {Paused}
    }
  }

  datatype Action =
    | CreateTask(t: TaskId, row: TaskRow)
    | DeleteTask(t: TaskId)
    | Claim(k: TickId, ids: map<TaskId, WorkerId>, now: int)
    | PrepareFails(w: WorkerId, retryable: bool)
    | PrepareOk(w: WorkerId)
    | StartFails(w: WorkerId, retryable: bool)
    | StartOk(w: WorkerId)
    | BuildFails(w: WorkerId, retryable: bool)
    | Register(w: WorkerId)
    | Activate(w: WorkerId, now: int, storeOk: bool)
    | StopStarted(w: WorkerId, ok: bool)
    | Unregister(w: WorkerId)
    | ReleaseLease(w: WorkerId)
    | Settle(w: WorkerId, now: int, storeOk: bool)
    | Sweep(cutoff: int, now: int)
    | Steer(t: TaskId, kind: Steering, now: int)
    | Append(t: TaskId, event: EventKind)
    | WorkerDies(w: WorkerId)
    | BeginRetire(t: TaskId, worker: Option<WorkerId>, target: TaskState, stop: bool)
    | ReadWorker(t: TaskId)
    | ReadTask(t: TaskId)
    | ReadFails(t: TaskId)
    | StopRetiree(t: TaskId, ok: bool)
    | Judge(t: TaskId, passed: bool)
    | Commit(t: TaskId, now: int, storeOk: bool)
    | ReleaseRetiree(t: TaskId)
    | DropHandle(t: TaskId)
    | ExitRetire(t: TaskId)
    | Restart
    | Reattach(t: TaskId, w: WorkerId)

  function Init(): State {
    State(EmptyDb(), map[], map[], map[], {}, map[], map[], map[], {})
  }

  // --- task submission and deletion ---

  function DoCreate(s: State, t: TaskId, row: TaskRow): State {
    if t in s.used || !(row.state.Planned? || row.state.Queued?) then s
    else s.(db := Tables.CreateTask(s.db, t, row).After(s.db), used := s.used + {t})
  }

  function DoDelete(s: State, t: TaskId): State {
    s.(db := Tables.DeleteTask(s.db, t))
  }

  // --- the scheduler tick ---

  predicate FreshIds(s: State, taken: set<TaskId>, ids: map<TaskId, WorkerId>) {
    && taken <= ids.Keys
    && (forall t :: t in taken ==> ids[t] !in s.attempts && ids[t] !in s.db.workers)
    && (forall t, u :: t in taken && u in taken && t != u ==> ids[t] != ids[u])
  }

  function NewAttempts(
      tasks: map<TaskId, TaskRow>, k: TickId, taken: set<TaskId>, ids: map<TaskId, WorkerId>): map<WorkerId, Attempt>
    requires taken <= ids.Keys && taken <= tasks.Keys
    requires forall t, u :: t in taken && u in taken && t != u ==> ids[t] != ids[u]
  {
    map t | t in taken :: ids[t] := Attempt(t, tasks[t].need, k, false, Claimed)
  }

  /** The claim transaction, together with the worker ids drawn for the claimed tasks. */
  function DoClaim(c: Config, s: State, k: TickId, ids: map<TaskId, WorkerId>, now: int): State {
    ClaimableRows(s.db, c.maxActive);
    var taken := Elements(Claimable(s.db, c.maxActive));
    if k in s.started || !FreshIds(s, taken, ids) then s
    else s.(
      db := ClaimQueuedTasks(s.db, c.maxActive, now),
      attempts := s.attempts + NewAttempts(s.db.tasks, k, taken, ids),
      owner := s.owner + (map t | t in taken :: ids[t]),
      started := s.started[k := 0])
  }

  function WithPc(s: State, w: WorkerId, pc: Pc): State
    requires w in s.attempts
  {
    s.(attempts := s.attempts[w := s.attempts[w].(pc := pc)])
  }

  /** Preparation ended without a lease: resource busy, bad requirement, or another error. */
  function DoPrepareFails(s: State, w: WorkerId, retryable: bool): State {
    if w !in s.attempts || !s.attempts[w].pc.Claimed? then s
    else WithPc(s, w, Settling(false, retryable))
  }

  /** What the task's resource requirement asks for; a GPU UUID is refused while held. */
  function DoPrepareOk(s: State, w: WorkerId): State {
    if w !in s.attempts || !s.attempts[w].pc.Claimed? then s
    else
      var need := s.attempts[w].need;
      match need
      case Some(GpuLease(u)) =>
        if u in s.held then s
        else WithPc(s, w, Leased(need)).(held := s.held[u := w])
      case _ => WithPc(s, w, Leased(need))
  }

  function DoStartFails(s: State, w: WorkerId, retryable: bool): State {
    if w !in s.attempts || !s.attempts[w].pc.Leased? then s
    else WithPc(s, w, Cleaning(s.attempts[w].pc.lease, false, false, retryable))
  }

  function DoStartOk(s: State, w: WorkerId): State {
    if w !in s.attempts || !s.attempts[w].pc.Leased? then s
    else WithPc(s, w, Started(s.attempts[w].pc.lease)).(live := s.live + {w})
  }

  /** Building the worker row failed before the handle was registered. */
  function DoBuildFails(s: State, w: WorkerId, retryable: bool): State {
    if w !in s.attempts || !s.attempts[w].pc.Started? then s
    else WithPc(s, w, Failing(s.attempts[w].pc.lease, false, retryable))
  }

  function DoRegister(s: State, w: WorkerId): State {
    if w !in s.attempts || !s.attempts[w].pc.Started? then s
    else
      var a := s.attempts[w];
      s.(attempts := s.attempts[w := a.(known := true, pc := Registered(a.pc.lease))],
         handles := s.handles[a.task := w])
  }

  function DoActivate(c: Config, s: State, w: WorkerId, now: int, storeOk: bool): State {
    if w !in s.attempts || !s.attempts[w].pc.Registered? then s
    else
      var a := s.attempts[w];
      var outcome := Tables.ActivateWorker(s.db, a.task, w, WorkerRow(a.task, a.pc.lease, now, None), now);
      if outcome.Committed? && (storeOk || !c.faults) then
        WithPc(s, w, Finished(Activated)).(
          db := outcome.db,
          started := s.started[a.tick := (if a.tick in s.started then s.started[a.tick] else 0) + 1])
      else WithPc(s, w, Failing(a.pc.lease, true, true))
  }

  function DoStopStarted(s: State, w: WorkerId, ok: bool): State {
    if w !in s.attempts || !s.attempts[w].pc.Failing? then s
    else
      var pc := s.attempts[w].pc;
      WithPc(s, w, Cleaning(pc.lease, pc.registered, !ok, pc.retryable)).(
        live := if ok then s.live - {w} else s.live)
  }

  function DoUnregister(s: State, w: WorkerId): State {
    if w !in s.attempts || !s.attempts[w].pc.Cleaning? || !s.attempts[w].pc.registered then s
    else
      WithPc(s, w, s.attempts[w].pc.(registered := false)).(handles := s.handles - {s.attempts[w].task})
  }

  /** `release_id` pops whatever entry the UUID has, whoever put it there. */
  function ReleaseId(held: map<Uuid, WorkerId>, lease: Option<Lease>): map<Uuid, WorkerId> {
    match lease
    case Some(GpuLease(u)) => held - {u}
    case _ => held
  }

  function DoReleaseLease(s: State, w: WorkerId): State {
    if w !in s.attempts || !s.attempts[w].pc.Cleaning? || s.attempts[w].pc.registered then s
    else
      var pc := s.attempts[w].pc;
      WithPc(s, w, Settling(pc.stopFailed, pc.retryable)).(held := ReleaseId(s.held, pc.lease))
  }

  /** The compensating state write: LOST after a failed stop, else QUEUED or FAILED. */
  function SettleTarget(pc: Pc): TaskState
    requires pc.Settling?
  {
    if pc.stopFailed then Lost else if pc.retryable then Queued else Failed
  }

  function DoSettle(c: Config, s: State, w: WorkerId, now: int, storeOk: bool): State {
    if w !in s.attempts || !s.attempts[w].pc.Settling? then s
    else
      var a := s.attempts[w];
      if c.faults && !storeOk then WithPc(s, w, Finished(Unsettled))
      else
        WithPc(s, w, Finished(Compensated)).(
          db := ReleaseTaskClaim(s.db, a.task, SettleTarget(a.pc), now).After(s.db))
  }

  // --- sweep, steering, telemetry ---

  function DoSweep(s: State, cutoff: int, now: int): State {
    s.(db := MarkStaleDispatchingLost(s.db, cutoff, now))
  }

  function DoSteer(s: State, t: TaskId, kind: Steering, now: int): State {
    s.(db := SetTaskState(s.db, t, kind.Target(), Some(kind.Expected()), now).After(s.db))
  }

  /** Any `append_event` call outside a retirement; none of them writes an evaluation. */
  function DoAppend(c: Config, s: State, t: TaskId, event: EventKind): State {
    if event.Evaluation? then s
    else s.(db := AppendEvent(s.db, t, event, c.retention).After(s.db))
  }

  // --- retirement ---

  /**
   * The worker ids a caller of `retire` can have in hand: one that was registered
   * for the task at some time, or none at all when an earlier look saw the task's
   * worker active and the look just before the call no longer does.
   */
  predicate CanName(s: State, t: TaskId, worker: Option<WorkerId>) {
    match worker
    case Some(w) => w in s.attempts && s.attempts[w].task == t && s.attempts[w].known
    case None =>
      && WasActivated(s, t)
      && forall w :: w in s.db.workers && s.db.workers[w].task == t ==> s.db.workers[w].ended.Some?
  }

  predicate WasActivated(s: State, t: TaskId) {
    t in s.owner && s.owner[t] in s.attempts && s.attempts[s.owner[t]].pc == Finished(Activated)
  }

  function DoBeginRetire(s: State, t: TaskId, worker: Option<WorkerId>, target: TaskState, stop: bool): State {
    if t in s.retirements || !target.Terminal() || !CanName(s, t, worker) then s
    else
      var handle := if t in s.handles then Some(s.handles[t]) else None;
      s.(retirements := s.retirements[t := Retirement(worker, target, stop, handle, Begun)])
  }

  function WithRetirePc(s: State, t: TaskId, pc: RetirePc): State
    requires t in s.retirements
  {
    s.(retirements := s.retirements[t := s.retirements[t].(pc := pc)])
  }

  function DoReadWorker(s: State, t: TaskId): State {
    if t !in s.retirements || !s.retirements[t].pc.Begun? then s
    else
      var worker := s.retirements[t].worker;
      var row := if worker.Some? && worker.value in s.db.workers then Some(s.db.workers[worker.value]) else None;
      WithRetirePc(s, t, WorkerRead(row))
  }

  function DoReadTask(s: State, t: TaskId): State {
    if t !in s.retirements || !s.retirements[t].pc.WorkerRead? then s
    else
      var row := s.retirements[t].pc.row;
      if t !in s.db.tasks then WithRetirePc(s, t, Dropping)
      else if s.db.tasks[t].state.Terminal() && (row.None? || row.value.ended.Some?) then WithRetirePc(s, t, Dropping)
      else WithRetirePc(s, t, TaskRead(row, s.db.tasks[t]))
  }

  /** A read raises: the guard is freed on the way out, the handle stays registered. */
  function DoReadFails(c: Config, s: State, t: TaskId): State {
    if !c.faults || t !in s.retirements || !(s.retirements[t].pc.Begun? || s.retirements[t].pc.WorkerRead?) then s
    else WithRetirePc(s, t, Exiting)
  }

  function DoStopRetiree(s: State, t: TaskId, ok: bool): State {
    if t !in s.retirements || !s.retirements[t].pc.TaskRead? then s
    else
      var r := s.retirements[t];
      var stopped := if r.stop && r.handle.Some? && ok then {r.handle.value} else {};
      WithRetirePc(s, t, Stopped(r.pc.row, r.pc.task)).(live := s.live - stopped)
  }

  /** The evaluator gate: what a retirement will try to commit, and the event that goes with it. */
  function Verdict(task: TaskRow, target: TaskState, passed: bool): (Option<TaskState>, Option<EventKind>) {
    if task.state.Terminal() then (None, None)
    else if !target.Done? || !task.gated then (Some(target), None)
    else (Some(if passed then Done else Failed), Some(Evaluation(passed)))
  }

  function DoJudge(s: State, t: TaskId, passed: bool): State {
    if t !in s.retirements || !s.retirements[t].pc.Stopped? then s
    else
      var r := s.retirements[t];
      var (verdict, event) := Verdict(r.pc.task, r.target, passed);
      WithRetirePc(s, t, Judged(r.pc.row, r.pc.task, verdict, event))
  }

  /** The write a retirement issues: finish the worker, or only end a row left open. */
  function CommitWrite(s: State, r: Retirement, t: TaskId, now: int): Write
    requires r.pc.Judged?
  {
    if r.pc.verdict.Some? then FinishWorker(s.db, t, r.worker, r.pc.verdict.value, r.pc.event, now)
    else Committed(if r.worker.Some? then EndWorker(s.db, r.worker.value, now) else s.db)
  }

  function DoCommit(c: Config, s: State, t: TaskId, now: int, storeOk: bool): State {
    if t !in s.retirements || !s.retirements[t].pc.Judged? then s
    else
      var r := s.retirements[t];
      var outcome := CommitWrite(s, r, t, now);
      if outcome.Committed? && (storeOk || !c.faults) then
        WithRetirePc(s, t, Retired(r.pc.row, r.pc.task)).(db := outcome.db)
      else WithRetirePc(s, t, Exiting)
  }

  function DoReleaseRetiree(s: State, t: TaskId): State {
    if t !in s.retirements || !s.retirements[t].pc.Retired? then s
    else
      var pc := s.retirements[t].pc;
      var lease := if pc.row.Some? && pc.task.need.Some? then pc.row.value.lease else None;
      WithRetirePc(s, t, Dropping).(held := ReleaseId(s.held, lease))
  }

  function DoDropHandle(s: State, t: TaskId): State {
    if t !in s.retirements || !s.retirements[t].pc.Dropping? then s
    else WithRetirePc(s, t, Exiting).(handles := s.handles - {t})
  }

  function DoExitRetire(s: State, t: TaskId): State {
    if t !in s.retirements || !s.retirements[t].pc.Exiting? then s
    else s.(retirements := s.retirements - {t})
  }

  // --- process death and recovery ---

  function Abandon(a: Attempt): Attempt {
    if a.pc.Finished? then a else a.(pc := Finished(Unsettled))
  }

  /** Memory and flocks vanish with the process; rows and external workers stay. */
  function DoRestart(c: Config, s: State): State {
    if !c.restarts then s
    else s.(
      held := map[],
      handles := map[],
      retirements := map[],
      attempts := map w | w in s.attempts :: Abandon(s.attempts[w]))
  }

  /** Recovery registers a fresh handle under the worker row that is still active. */
  function DoReattach(s: State, t: TaskId, w: WorkerId): State {
    if !IsLive(s.db, t) || w !in s.db.workers || s.db.workers[w].task != t || s.db.workers[w].ended.Some? then s
    else s.(handles := s.handles[t := w])
  }

  function Apply(c: Config, s: State, a: Action): State {
    match a
    case CreateTask(t, row) => DoCreate(s, t, row)
    case DeleteTask(t) => DoDelete(s, t)
    case Claim(k, ids, now) => DoClaim(c, s, k, ids, now)
    case PrepareFails(w, retryable) => DoPrepareFails(s, w, retryable)
    case PrepareOk(w) => DoPrepareOk(s, w)
    case StartFails(w, retryable) => DoStartFails(s, w, retryable)
    case StartOk(w) => DoStartOk(s, w)
    case BuildFails(w, retryable) => DoBuildFails(s, w, retryable)
    case Register(w) => DoRegister(s, w)
    case Activate(w, now, ok) => DoActivate(c, s, w, now, ok)
    case StopStarted(w, ok) => DoStopStarted(s, w, ok)
    case Unregister(w) => DoUnregister(s, w)
    case ReleaseLease(w) => DoReleaseLease(s, w)
    case Settle(w, now, ok) => DoSettle(c, s, w, now, ok)
    case Sweep(cutoff, now) => DoSweep(s, cutoff, now)
    case Steer(t, kind, now) => DoSteer(s, t, kind, now)
    case Append(t, event) => DoAppend(c, s, t, event)
    case WorkerDies(w) => s.(live := s.live - {w})
    case BeginRetire(t, worker, target, stop) => DoBeginRetire(s, t, worker, target, stop)
    case ReadWorker(t) => DoReadWorker(s, t)
    case ReadTask(t) => DoReadTask(s, t)
    case ReadFails(t) => DoReadFails(c, s, t)
    case StopRetiree(t, ok) => DoStopRetiree(s, t, ok)
    case Judge(t, passed) => DoJudge(s, t, passed)
    case Commit(t, now, ok) => DoCommit(c, s, t, now, ok)
    case ReleaseRetiree(t) => DoReleaseRetiree(s, t)
    case DropHandle(t) => DoDropHandle(s, t)
    case ExitRetire(t) => DoExitRetire(s, t)
    case Restart => DoRestart(c, s)
    case Reattach(t, w) => DoReattach(s, t, w)
  }

  /** The state after a list of actions. */
  function Run(c: Config, s: State, actions: seq<Action>): State
    decreases |actions|
  {
    if actions == [] then s else Run(c, Apply(c, s, actions[0]), actions[1..])
  }
}
