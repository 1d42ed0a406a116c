/** The inductive invariant of the dispatch protocol. */
module Invariant {
  import opened Basics
  import opened Lifecycle
  import opened Tables
  import opened Protocol

  ghost predicate Gone(s: State, t: TaskId) {
    t !in s.db.tasks || s.db.tasks[t].state.Terminal()
  }

  /** Ids are never reused, so everything in memory speaks about a task that once existed. */
  ghost predicate UsedOk(s: State) {
    && s.db.tasks.Keys <= s.used
    && s.owner.Keys <= s.used
    && (forall w :: w in s.attempts ==> s.attempts[w].task in s.used)
  }

  /**
   * Each task has one attempt that speaks for it.  Every attempt that could still
   * write for the task, or that ended without giving the task back, is that one.
   */
  ghost predicate OwnerOk(s: State) {
    && (forall t :: t in s.owner ==> s.owner[t] in s.attempts && s.attempts[s.owner[t]].task == t)
    && (forall w :: w in s.attempts && s.attempts[w].pc != Finished(Compensated) ==>
          s.attempts[w].task in s.owner && s.owner[s.attempts[w].task] == w)
  }

  /** The state of a task fixes how far the attempt that speaks for it has got. */
  ghost predicate StandingOk(s: State, t: TaskId)
    requires t in s.db.tasks && OwnerOk(s)
  {
    var state := s.db.tasks[t].state;
    if state.Planned? || state.Queued? then
      t in s.owner ==> s.attempts[s.owner[t]].pc == Finished(Compensated)
    else if state.Dispatching? then
      && t in s.owner
      && s.attempts[s.owner[t]].pc != Finished(Compensated)
      && s.attempts[s.owner[t]].pc != Finished(Activated)
    else if state.Live() then
      && t in s.owner
      && s.attempts[s.owner[t]].pc == Finished(Activated)
      && s.owner[t] in ActiveWorkers(s.db)
    else true
  }

  /** Worker rows belong to activated attempts of existing tasks; an ended row means the task is over. */
  ghost predicate RowOk(s: State, w: WorkerId)
    requires w in s.db.workers
  {
    var row := s.db.workers[w];
    && w in s.attempts
    && s.attempts[w].task == row.task
    && s.attempts[w].pc == Finished(Activated)
    && row.task in s.db.tasks
    && (row.ended.Some? ==> s.db.tasks[row.task].state.Terminal())
  }

  ghost predicate AttemptOk(c: Config, s: State, w: WorkerId)
    requires w in s.attempts
  {
    var a := s.attempts[w];
    && (a.pc.Claimed? || a.pc.Leased? || a.pc.Started? ==> !a.known)
    && (a.pc.Registered? || a.pc == Finished(Activated) ==> a.known)
    && (a.pc == Finished(Unsettled) ==> c.faults || c.restarts)
    && (!c.faults && a.known
        && (a.pc.Failing? || a.pc.Cleaning? || a.pc.Settling? || a.pc == Finished(Compensated)) ==>
          Gone(s, a.task))
  }

  /** An external worker without a live claim belongs to a task that is over. */
  ghost predicate LiveOk(s: State, w: WorkerId) {
    && w in s.attempts
    && !s.attempts[w].pc.Claimed? && !s.attempts[w].pc.Leased?
    && (s.attempts[w].pc.Cleaning? || s.attempts[w].pc.Settling? ==> s.attempts[w].pc.stopFailed)
    && (s.attempts[w].pc == Finished(Compensated) ==> Gone(s, s.attempts[w].task))
  }

  ghost predicate HandleOk(s: State, t: TaskId)
    requires t in s.handles
  {
    s.handles[t] in s.attempts && s.attempts[s.handles[t]].task == t && s.attempts[s.handles[t]].known
  }

  /** What a retirement in flight knows about its worker and its task. */
  ghost predicate RetireOk(s: State, t: TaskId)
    requires t in s.retirements
  {
    var r := s.retirements[t];
    && t in s.used
    && r.target.Terminal()
    && (r.worker.Some? ==>
          && r.worker.value in s.attempts && s.attempts[r.worker.value].task == t
          && s.attempts[r.worker.value].known)
    && (r.handle.Some? ==> r.handle.value in s.attempts && s.attempts[r.handle.value].task == t)
    && (r.worker.None? ==> WasActivated(s, t) && s.owner[t] !in ActiveWorkers(s.db))
  }

  /** The row in hand still describes the worker, and is unchanged until this call commits. */
  ghost predicate RowInHandOk(s: State, t: TaskId)
    requires t in s.retirements
  {
    var r := s.retirements[t];
    r.pc.Row().Some? ==>
      var row := r.pc.Row().value;
      && r.worker.Some? && r.worker.value in s.attempts
      && s.attempts[r.worker.value].pc == Finished(Activated)
      && (r.worker.value !in s.db.workers ==> t !in s.db.tasks)
      && (r.worker.value in s.db.workers ==>
            var now := s.db.workers[r.worker.value];
            && now.task == t && now.lease == row.lease
            && (row.ended.Some? || r.pc.Retired? ==> now.ended.Some?)
            && (row.ended.None? && !r.pc.Retired? ==> now.ended.None?))
      && (r.pc.Uncommitted() || r.pc.Retired? ==> row.ended.None?)
  }

  /** What was read about the task still bounds where the task can be. */
  ghost predicate ReadOk(s: State, t: TaskId)
    requires t in s.retirements
  {
    var pc := s.retirements[t].pc;
    pc.Uncommitted() ==>
      && (pc.task.state.Terminal() ==> pc.row.Some? && Gone(s, t))
      && (t in s.db.tasks ==> s.db.tasks[t].gated == pc.task.gated)
      && (!pc.task.state.Terminal() && t in s.db.tasks ==>
            && !s.db.tasks[t].state.Done? && !s.db.tasks[t].state.Cancelled?
            && (pc.task.state.Live() ==> s.db.tasks[t].state.Live())
            && Evaluations(s.db.log, t) == [])
      && (pc.Judged? ==> exists passed :: (pc.verdict, pc.event) == Verdict(pc.task, s.retirements[t].target, passed))
  }

  /** At most one evaluation is ever recorded, and it agrees with the outcome. */
  ghost predicate EvaluationOk(s: State, t: TaskId) {
    var e := Evaluations(s.db.log, t);
    && |e| <= 1
    && (t !in s.db.tasks || (!s.db.tasks[t].state.Done? && !s.db.tasks[t].state.Failed?) ==> e == [])
    && (t in s.db.tasks && s.db.tasks[t].state.Done? ==> e == if s.db.tasks[t].gated then [true] else [])
    && (t in s.db.tasks && s.db.tasks[t].state.Failed? ==> e == [] || (s.db.tasks[t].gated && e == [false]))
  }

  /** Everyone who has a GPU lease in hand is the one it is held for. */
  ghost predicate LeaseOk(c: Config, s: State) {
    !c.restarts ==>
      && (forall w :: w in s.db.workers && s.db.workers[w].ended.None? ==> HeldFor(s, w, s.db.workers[w].lease))
      && (forall w :: w in s.attempts ==> HeldFor(s, w, s.attempts[w].pc.Holding()))
      && (forall t ::
            && t in s.retirements && s.retirements[t].pc.Row().Some? && s.retirements[t].worker.Some?
            && s.retirements[t].pc.Row().value.ended.None? ==>
            HeldFor(s, s.retirements[t].worker.value, s.retirements[t].pc.Row().value.lease))
  }

  ghost predicate HeldFor(s: State, w: WorkerId, lease: Option<Lease>) {
    match lease
    case Some(GpuLease(u)) => u in s.held && s.held[u] == w
    case _ => true
  }

  /** Every held UUID is in the hands of a running attempt, or was handed to a worker row. */
  ghost predicate HeldOk(s: State) {
    forall u :: u in s.held ==>
      && s.held[u] in s.attempts
      && (s.attempts[s.held[u]].pc.Holding() == Some(GpuLease(u)) || s.attempts[s.held[u]].pc == Finished(Activated))
  }

  /** Without store faults an un-ended worker row means the task is live. */
  ghost predicate OpenRowOk(c: Config, s: State) {
    !c.faults ==> forall w :: w in ActiveWorkers(s.db) ==> IsLive(s.db, s.db.workers[w].task)
  }

  ghost function ActivatedBy(s: State, k: TickId): set<WorkerId> {
    set w | w in s.attempts && s.attempts[w].tick == k && s.attempts[w].pc == Finished(Activated)
  }

  ghost predicate CountOk(s: State) {
    && (forall w :: w in s.attempts ==> s.attempts[w].tick in s.started)
    && (forall k :: k in s.started ==> s.started[k] == |ActivatedBy(s, k)|)
  }

  ghost predicate Standings(s: State) {
    OwnerOk(s) && forall t :: t in s.db.tasks ==> StandingOk(s, t)
  }

  ghost predicate Rows(s: State) {
    forall w :: w in s.db.workers ==> RowOk(s, w)
  }

  ghost predicate Attempts(c: Config, s: State) {
    forall w :: w in s.attempts ==> AttemptOk(c, s, w)
  }

  ghost predicate Lives(s: State) {
    forall w :: w in s.live ==> LiveOk(s, w)
  }

  ghost predicate Handles(s: State) {
    forall t :: t in s.handles ==> HandleOk(s, t)
  }

  ghost predicate Retires(s: State) {
    forall t :: t in s.retirements ==> RetireOk(s, t)
  }

  ghost predicate RowsInHand(s: State) {
    forall t :: t in s.retirements ==> RowInHandOk(s, t)
  }

  ghost predicate Reads(s: State) {
    forall t :: t in s.retirements ==> ReadOk(s, t)
  }

  ghost predicate Evals(s: State) {
    forall t: TaskId :: EvaluationOk(s, t)
  }

  ghost predicate Inv(c: Config, s: State) {
    && UsedOk(s) && OwnerOk(s) && Standings(s) && Rows(s) && Attempts(c, s) && Lives(s) && Handles(s)
    && Retires(s) && RowsInHand(s) && Reads(s) && Evals(s)
    && OpenRowOk(c, s) && LeaseOk(c, s) && HeldOk(s) && CountOk(s)
  }
}
