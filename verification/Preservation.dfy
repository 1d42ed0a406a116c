/** Every action keeps the protocol invariant. */
module Preservation {
  import opened Basics
  import opened Lifecycle
  import opened Tables
  import opened Queueing
  import opened Protocol
  import opened Invariant

  // --- steps that only advance one unfinished attempt ---

  ghost predicate PcMove(s: State, s': State, w: WorkerId) {
    && s'.db == s.db && s'.owner == s.owner && s'.retirements == s.retirements
    && s'.started == s.started && s'.used == s.used
    && w in s.attempts && w in s'.attempts
    && !s.attempts[w].pc.Finished? && !s'.attempts[w].pc.Finished?
    && s'.attempts[w].task == s.attempts[w].task && s'.attempts[w].tick == s.attempts[w].tick
    && (s.attempts[w].known ==> s'.attempts[w].known)
    && s'.attempts == s.attempts[w := s'.attempts[w]]
  }

  ghost predicate PcMoveKept(c: Config, s: State) {
    && UsedOk(s) && OwnerOk(s) && Standings(s) && Rows(s)
    && Retires(s) && RowsInHand(s) && Reads(s) && Evals(s) && OpenRowOk(c, s) && CountOk(s)
  }

  lemma SameLog(s: State, s': State)
    requires Evals(s) && s'.db.log == s.db.log && s'.db.tasks == s.db.tasks
    ensures Evals(s')
  {
    forall t: TaskId ensures EvaluationOk(s', t) {
      assert EvaluationOk(s, t);
    }
  }

  lemma SameCount(s: State, s': State)
    requires CountOk(s) && s'.started == s.started && s'.attempts.Keys == s.attempts.Keys
    requires forall w :: w in s.attempts ==>
      && s'.attempts[w].tick == s.attempts[w].tick
      && (s'.attempts[w].pc == Finished(Activated) <==> s.attempts[w].pc == Finished(Activated))
    ensures CountOk(s')
  {
    forall k | k in s'.started ensures s'.started[k] == |ActivatedBy(s', k)| {
      assert ActivatedBy(s', k) == ActivatedBy(s, k);
    }
  }

  lemma PcMoveRows(s: State, s': State, w: WorkerId)
    requires UsedOk(s) && Standings(s) && Rows(s) && PcMove(s, s', w)
    ensures UsedOk(s') && Standings(s') && Rows(s')
  {
  }

  lemma PcMoveRetires(s: State, s': State, w: WorkerId)
    requires Retires(s) && RowsInHand(s) && Reads(s) && PcMove(s, s', w)
    ensures Retires(s') && RowsInHand(s') && Reads(s')
  {
  }

  lemma PcMoveKeeps(c: Config, s: State, s': State, w: WorkerId)
    requires Inv(c, s) && PcMove(s, s', w)
    ensures PcMoveKept(c, s')
  {
    PcMoveRows(s, s', w);
    PcMoveRetires(s, s', w);
    SameLog(s, s');
    SameCount(s, s');
  }

  /** The parts that depend on where the moved attempt now stands. */
  ghost predicate PcMoveFits(c: Config, s: State, s': State, w: WorkerId) {
    && PcMove(s, s', w)
    && AttemptOk(c, s', w)
    && s'.live <= s.live + {w}
    && (w in s'.live ==> LiveOk(s', w))
    && (forall t :: t in s'.handles ==>
          || (t in s.handles && s'.handles[t] == s.handles[t])
          || (t == s.attempts[w].task && s'.handles[t] == w && s'.attempts[w].known))
  }

  lemma PcMoveAttempts(c: Config, s: State, s': State, w: WorkerId)
    requires Attempts(c, s) && Lives(s) && Handles(s) && PcMoveFits(c, s, s', w)
    ensures Attempts(c, s') && Lives(s') && Handles(s')
  {
    forall x | x in s'.live ensures LiveOk(s', x) {
      if x != w { assert LiveOk(s, x); }
    }
  }

  /** Leases stay put, one is taken by the moved attempt, or its own one is given back. */
  ghost predicate LeaseMove(s: State, s': State, w: WorkerId)
    requires w in s.attempts && w in s'.attempts
  {
    var before, after := s.attempts[w].pc.Holding(), s'.attempts[w].pc.Holding();
    || (s'.held == s.held && after == before)
    || (before.None? && after.Some? && after.value.GpuLease? && after.value.uuid !in s.held
        && s'.held == s.held[after.value.uuid := w])
    || (before.None? && (after.None? || after.value.CpuLease?) && s'.held == s.held)
    || (after.None? && s'.held == ReleaseId(s.held, before))
  }

  lemma PcMoveLeases(c: Config, s: State, s': State, w: WorkerId)
    requires LeaseOk(c, s) && HeldOk(s) && Rows(s) && RowsInHand(s) && PcMove(s, s', w) && LeaseMove(s, s', w)
    ensures LeaseOk(c, s') && HeldOk(s')
  {
  }

  lemma PcMoveInv(c: Config, s: State, s': State, w: WorkerId)
    requires Inv(c, s) && PcMoveFits(c, s, s', w) && LeaseMove(s, s', w)
    ensures Inv(c, s')
  {
    PcMoveKeeps(c, s, s', w);
    PcMoveAttempts(c, s, s', w);
    PcMoveLeases(c, s, s', w);
  }

  lemma KeepPrepareFails(c: Config, s: State, w: WorkerId, retryable: bool)
    requires Inv(c, s)
    ensures Inv(c, DoPrepareFails(s, w, retryable))
  {
    var s' := DoPrepareFails(s, w, retryable);
    if s' != s {
      assert AttemptOk(c, s, w);
      PcMoveInv(c, s, s', w);
    }
  }

  lemma PrepareOkMoves(c: Config, s: State, w: WorkerId)
    requires Attempts(c, s) && Lives(s) && DoPrepareOk(s, w) != s
    ensures var s' := DoPrepareOk(s, w); PcMoveFits(c, s, s', w) && LeaseMove(s, s', w)
  {
    assert AttemptOk(c, s, w);
    assert w in s.live ==> LiveOk(s, w);
    PrepareOkLease(s, w);
  }

  lemma PrepareOkLease(s: State, w: WorkerId)
    requires DoPrepareOk(s, w) != s
    ensures LeaseMove(s, DoPrepareOk(s, w), w)
  {
  }

  lemma KeepPrepareOk(c: Config, s: State, w: WorkerId)
    requires Inv(c, s)
    ensures Inv(c, DoPrepareOk(s, w))
  {
    var s' := DoPrepareOk(s, w);
    if s' != s {
      PrepareOkMoves(c, s, w);
      PcMoveInv(c, s, s', w);
    }
  }

  lemma KeepStartFails(c: Config, s: State, w: WorkerId, retryable: bool)
    requires Inv(c, s)
    ensures Inv(c, DoStartFails(s, w, retryable))
  {
    var s' := DoStartFails(s, w, retryable);
    if s' != s {
      assert AttemptOk(c, s, w);
      PcMoveInv(c, s, s', w);
    }
  }

  lemma KeepStartOk(c: Config, s: State, w: WorkerId)
    requires Inv(c, s)
    ensures Inv(c, DoStartOk(s, w))
  {
    var s' := DoStartOk(s, w);
    if s' != s {
      assert AttemptOk(c, s, w);
      PcMoveInv(c, s, s', w);
    }
  }

  lemma KeepBuildFails(c: Config, s: State, w: WorkerId, retryable: bool)
    requires Inv(c, s)
    ensures Inv(c, DoBuildFails(s, w, retryable))
  {
    var s' := DoBuildFails(s, w, retryable);
    if s' != s {
      assert AttemptOk(c, s, w);
      PcMoveInv(c, s, s', w);
    }
  }

  lemma KeepRegister(c: Config, s: State, w: WorkerId)
    requires Inv(c, s)
    ensures Inv(c, DoRegister(s, w))
  {
    var s' := DoRegister(s, w);
    if s' != s {
      assert AttemptOk(c, s, w);
      PcMoveInv(c, s, s', w);
    }
  }

  lemma KeepStopStarted(c: Config, s: State, w: WorkerId, ok: bool)
    requires Inv(c, s)
    ensures Inv(c, DoStopStarted(s, w, ok))
  {
    var s' := DoStopStarted(s, w, ok);
    if s' != s {
      assert AttemptOk(c, s, w);
      PcMoveInv(c, s, s', w);
    }
  }

  lemma KeepUnregister(c: Config, s: State, w: WorkerId)
    requires Inv(c, s)
    ensures Inv(c, DoUnregister(s, w))
  {
    var s' := DoUnregister(s, w);
    if s' != s {
      assert AttemptOk(c, s, w);
      PcMoveInv(c, s, s', w);
    }
  }

  lemma KeepReleaseLease(c: Config, s: State, w: WorkerId)
    requires Inv(c, s)
    ensures Inv(c, DoReleaseLease(s, w))
  {
    var s' := DoReleaseLease(s, w);
    if s' != s {
      assert AttemptOk(c, s, w);
      PcMoveInv(c, s, s', w);
    }
  }

  // --- steps that only advance one retirement ---

  ghost predicate RetireMove(s: State, s': State, t: TaskId) {
    && s'.db == s.db && s'.owner == s.owner && s'.attempts == s.attempts
    && s'.started == s.started && s'.used == s.used
    && s'.live <= s.live
    && (forall u :: u in s'.handles ==> u in s.handles && s'.handles[u] == s.handles[u])
    && s'.retirements - {t} == s.retirements - {t}
  }

  ghost predicate RetireMoveFits(s: State, s': State, t: TaskId) {
    && RetireMove(s, s', t)
    && (t in s'.retirements ==> RetireOk(s', t) && RowInHandOk(s', t) && ReadOk(s', t))
  }

  lemma RetireMoveOutside(s: State, s': State, t: TaskId, u: TaskId)
    requires RetireMove(s, s', t) && u != t
    ensures u in s'.retirements <==> u in s.retirements
    ensures u in s.retirements ==> s'.retirements[u] == s.retirements[u]
  {
    assert u in s.retirements - {t} <==> u in s.retirements;
    assert u in s'.retirements - {t} <==> u in s'.retirements;
    assert u in s.retirements ==> (s.retirements - {t})[u] == s.retirements[u];
    assert u in s'.retirements ==> (s'.retirements - {t})[u] == s'.retirements[u];
  }

  lemma RetireMoveRetires(s: State, s': State, t: TaskId)
    requires Retires(s) && RowsInHand(s) && Reads(s) && RetireMoveFits(s, s', t)
    ensures Retires(s') && RowsInHand(s') && Reads(s')
  {
    forall u | u in s'.retirements ensures RetireOk(s', u) && RowInHandOk(s', u) && ReadOk(s', u) {
      if u != t {
        RetireMoveOutside(s, s', t, u);
        assert RetireOk(s, u) && RowInHandOk(s, u) && ReadOk(s, u);
      }
    }
  }

  lemma RetireMoveRest(c: Config, s: State, s': State, t: TaskId)
    requires UsedOk(s) && Standings(s) && Rows(s) && Attempts(c, s) && Lives(s) && Handles(s) && OpenRowOk(c, s)
    requires RetireMove(s, s', t)
    ensures UsedOk(s') && Standings(s') && Rows(s') && Attempts(c, s') && Lives(s') && Handles(s') && OpenRowOk(c, s')
  {
    forall x | x in s'.live ensures LiveOk(s', x) {
      assert LiveOk(s, x);
    }
  }

  /** The leases a retirement of `t` has to answer for: none, unchanged, or its own given back. */
  ghost predicate RetireLeaseMove(c: Config, s: State, s': State, t: TaskId) {
    || (s'.held == s.held
        && (!c.restarts && t in s'.retirements && s'.retirements[t].pc.Row().Some?
            && s'.retirements[t].worker.Some? && s'.retirements[t].pc.Row().value.ended.None? ==>
              HeldFor(s, s'.retirements[t].worker.value, s'.retirements[t].pc.Row().value.lease)))
    || (t in s.retirements && s.retirements[t].pc.Retired? && s.retirements[t].pc.row.Some?
        && t in s'.retirements && s'.retirements[t].pc.Row().None?
        && s'.held == ReleaseId(s.held, s.retirements[t].pc.row.value.lease))
  }

  lemma RetireMoveLeases(c: Config, s: State, s': State, t: TaskId)
    requires LeaseOk(c, s) && HeldOk(s) && Retires(s) && RowsInHand(s) && RetireMove(s, s', t)
        && RetireLeaseMove(c, s, s', t)
    ensures LeaseOk(c, s') && HeldOk(s')
  {
    forall u | u in s'.retirements && u != t
      ensures u in s.retirements && s'.retirements[u] == s.retirements[u]
    {
      RetireMoveOutside(s, s', t, u);
    }
    if t in s.retirements {
      assert RetireOk(s, t) && RowInHandOk(s, t);
    }
  }

  lemma RetireMoveInv(c: Config, s: State, s': State, t: TaskId)
    requires Inv(c, s) && RetireMoveFits(s, s', t) && RetireLeaseMove(c, s, s', t)
    ensures Inv(c, s')
  {
    RetireMoveRetires(s, s', t);
    RetireMoveRest(c, s, s', t);
    RetireMoveLeases(c, s, s', t);
    SameLog(s, s');
    SameCount(s, s');
  }

  lemma KeepBeginRetire(c: Config, s: State, t: TaskId, worker: Option<WorkerId>, target: TaskState, stop: bool)
    requires Inv(c, s)
    ensures Inv(c, DoBeginRetire(s, t, worker, target, stop))
  {
    var s' := DoBeginRetire(s, t, worker, target, stop);
    if s' != s {
      BeginRetireFits(s, t, worker, target, stop);
      RetireMoveInv(c, s, s', t);
    }
  }

  lemma BeginRetireFits(s: State, t: TaskId, worker: Option<WorkerId>, target: TaskState, stop: bool)
    requires UsedOk(s) && Handles(s) && Rows(s) && OwnerOk(s)
    requires DoBeginRetire(s, t, worker, target, stop) != s
    ensures RetireMoveFits(s, DoBeginRetire(s, t, worker, target, stop), t)
  {
  }

  /** The facts about one retirement that its own next step relies on. */
  ghost predicate RetireFacts(s: State, t: TaskId) {
    t in s.retirements && RetireOk(s, t) && RowInHandOk(s, t) && ReadOk(s, t)
  }

  lemma KeepReadWorker(c: Config, s: State, t: TaskId)
    requires Inv(c, s)
    ensures Inv(c, DoReadWorker(s, t))
  {
    var s' := DoReadWorker(s, t);
    if s' != s {
      ReadWorkerFits(s, t);
      RetireMoveInv(c, s, s', t);
    }
  }

  lemma ReadWorkerFits(s: State, t: TaskId)
    requires Retires(s) && Rows(s) && DoReadWorker(s, t) != s
    ensures RetireMoveFits(s, DoReadWorker(s, t), t)
  {
    assert RetireOk(s, t);
  }

  lemma KeepReadTask(c: Config, s: State, t: TaskId)
    requires Inv(c, s)
    ensures Inv(c, DoReadTask(s, t))
  {
    var s' := DoReadTask(s, t);
    if s' != s {
      var r := s.retirements[t];
      assert RetireFacts(s, t) && EvaluationOk(s, t);
      assert r.worker.Some? && r.worker.value in s.db.workers ==> RowOk(s, r.worker.value);
      ReadTaskFits(s, t);
      ReadTaskLease(c, s, t);
      RetireMoveInv(c, s, s', t);
    }
  }

  lemma ReadTaskFits(s: State, t: TaskId)
    requires RetireFacts(s, t) && EvaluationOk(s, t) && s.retirements[t].pc.WorkerRead?
    requires var r := s.retirements[t];
             r.worker.Some? && r.worker.value in s.db.workers ==> RowOk(s, r.worker.value)
    ensures RetireMoveFits(s, DoReadTask(s, t), t)
  {
    ReadTaskMoves(s, t);
    ReadTaskRow(s, t);
    ReadTaskRead(s, t);
  }

  lemma ReadTaskMoves(s: State, t: TaskId)
    requires t in s.retirements && RetireOk(s, t) && s.retirements[t].pc.WorkerRead?
    ensures var s' := DoReadTask(s, t); RetireMove(s, s', t) && RetireOk(s', t)
  {
  }

  lemma ReadTaskRow(s: State, t: TaskId)
    requires RetireFacts(s, t) && s.retirements[t].pc.WorkerRead?
    requires var r := s.retirements[t];
             r.worker.Some? && r.worker.value in s.db.workers ==> RowOk(s, r.worker.value)
    ensures RowInHandOk(DoReadTask(s, t), t)
  {
  }

  lemma ReadTaskRead(s: State, t: TaskId)
    requires t in s.retirements && EvaluationOk(s, t) && s.retirements[t].pc.WorkerRead?
    ensures ReadOk(DoReadTask(s, t), t)
  {
  }

  lemma ReadTaskLease(c: Config, s: State, t: TaskId)
    requires LeaseOk(c, s) && t in s.retirements && s.retirements[t].pc.WorkerRead?
    ensures RetireLeaseMove(c, s, DoReadTask(s, t), t)
  {
  }

  lemma KeepReadFails(c: Config, s: State, t: TaskId)
    requires Inv(c, s)
    ensures Inv(c, DoReadFails(c, s, t))
  {
    var s' := DoReadFails(c, s, t);
    if s' != s {
      assert RetireFacts(s, t);
      ReadFailsFits(c, s, t);
      RetireMoveInv(c, s, s', t);
    }
  }

  lemma ReadFailsFits(c: Config, s: State, t: TaskId)
    requires RetireFacts(s, t) && DoReadFails(c, s, t) != s
    ensures var s' := DoReadFails(c, s, t); RetireMoveFits(s, s', t) && RetireLeaseMove(c, s, s', t)
  {
  }

  lemma KeepStopRetiree(c: Config, s: State, t: TaskId, ok: bool)
    requires Inv(c, s)
    ensures Inv(c, DoStopRetiree(s, t, ok))
  {
    var s' := DoStopRetiree(s, t, ok);
    if s' != s {
      assert RetireFacts(s, t);
      StopRetireeFits(c, s, t, ok);
      RetireMoveInv(c, s, s', t);
    }
  }

  lemma StopRetireeFits(c: Config, s: State, t: TaskId, ok: bool)
    requires RetireFacts(s, t) && LeaseOk(c, s) && s.retirements[t].pc.TaskRead?
    ensures var s' := DoStopRetiree(s, t, ok); RetireMoveFits(s, s', t) && RetireLeaseMove(c, s, s', t)
  {
  }

  lemma KeepJudge(c: Config, s: State, t: TaskId, passed: bool)
    requires Inv(c, s)
    ensures Inv(c, DoJudge(s, t, passed))
  {
    var s' := DoJudge(s, t, passed);
    if s' != s {
      assert RetireFacts(s, t);
      JudgeFits(c, s, t, passed);
      RetireMoveInv(c, s, s', t);
    }
  }

  lemma JudgeFits(c: Config, s: State, t: TaskId, passed: bool)
    requires RetireFacts(s, t) && LeaseOk(c, s) && s.retirements[t].pc.Stopped?
    ensures var s' := DoJudge(s, t, passed); RetireMoveFits(s, s', t) && RetireLeaseMove(c, s, s', t)
  {
    var s' := DoJudge(s, t, passed);
    var pc := s'.retirements[t].pc;
    assert (pc.verdict, pc.event) == Verdict(pc.task, s'.retirements[t].target, passed);
  }

  lemma KeepReleaseRetiree(c: Config, s: State, t: TaskId)
    requires Inv(c, s)
    ensures Inv(c, DoReleaseRetiree(s, t))
  {
    var s' := DoReleaseRetiree(s, t);
    if s' != s {
      assert RetireFacts(s, t);
      ReleaseRetireeFits(c, s, t);
      RetireMoveInv(c, s, s', t);
    }
  }

  lemma ReleaseRetireeFits(c: Config, s: State, t: TaskId)
    requires RetireFacts(s, t) && s.retirements[t].pc.Retired?
    ensures var s' := DoReleaseRetiree(s, t); RetireMoveFits(s, s', t) && RetireLeaseMove(c, s, s', t)
  {
  }

  lemma KeepDropHandle(c: Config, s: State, t: TaskId)
    requires Inv(c, s)
    ensures Inv(c, DoDropHandle(s, t))
  {
    var s' := DoDropHandle(s, t);
    if s' != s {
      assert RetireFacts(s, t);
      DropHandleFits(c, s, t);
      RetireMoveInv(c, s, s', t);
    }
  }

  lemma DropHandleFits(c: Config, s: State, t: TaskId)
    requires RetireFacts(s, t) && s.retirements[t].pc.Dropping?
    ensures var s' := DoDropHandle(s, t); RetireMoveFits(s, s', t) && RetireLeaseMove(c, s, s', t)
  {
  }

  lemma KeepExitRetire(c: Config, s: State, t: TaskId)
    requires Inv(c, s)
    ensures Inv(c, DoExitRetire(s, t))
  {
    var s' := DoExitRetire(s, t);
    if s' != s {
      RetireMoveInv(c, s, s', t);
    }
  }

  // --- steps that write task states ---

  /** A write outside retirement: it never cancels or completes a task, and keeps live tasks live. */
  ghost predicate Tame(before: TaskState, after: TaskState) {
    after == before || (!before.Terminal() && !after.Done? && !after.Cancelled? && (before.Live() ==> after.Live()))
  }

  ghost predicate TameWrite(s: State, s': State) {
    && s'.db.tasks.Keys == s.db.tasks.Keys
    && (forall t :: t in s.db.tasks ==>
          && s'.db.tasks[t].gated == s.db.tasks[t].gated
          && Tame(s.db.tasks[t].state, s'.db.tasks[t].state))
    && (forall t: TaskId :: Evaluations(s'.db.log, t) == Evaluations(s.db.log, t))
  }

  /** Attempts only move forward: none disappears, and an activated one stays activated. */
  ghost predicate Steady(s: State, s': State) {
    forall w :: w in s.attempts ==>
      && w in s'.attempts
      && s'.attempts[w].task == s.attempts[w].task
      && (s.attempts[w].known ==> s'.attempts[w].known)
      && (s.attempts[w].pc == Finished(Activated) ==> s'.attempts[w].pc == Finished(Activated))
  }

  lemma TameReads(s: State, s': State)
    requires Reads(s) && s'.retirements == s.retirements && TameWrite(s, s')
    ensures Reads(s')
  {
    forall t | t in s'.retirements ensures ReadOk(s', t) {
      assert ReadOk(s, t);
    }
  }

  lemma TameEvals(s: State, s': State)
    requires Evals(s) && TameWrite(s, s')
    ensures Evals(s')
  {
    forall t: TaskId ensures EvaluationOk(s', t) {
      assert EvaluationOk(s, t);
    }
  }

  lemma TameRows(s: State, s': State)
    requires Rows(s) && s'.db.workers == s.db.workers && TameWrite(s, s') && Steady(s, s')
    ensures Rows(s')
  {
  }

  lemma TameRetires(s: State, s': State)
    requires Retires(s) && RowsInHand(s) && TameWrite(s, s') && Steady(s, s')
    requires s'.retirements == s.retirements && s'.db.workers == s.db.workers && s.used <= s'.used
    requires forall t :: WasActivated(s, t) ==> t in s'.owner && s'.owner[t] == s.owner[t]
    ensures Retires(s') && RowsInHand(s')
  {
    forall t | t in s'.retirements ensures RetireOk(s', t) && RowInHandOk(s', t) {
      assert RetireOk(s, t) && RowInHandOk(s, t);
    }
  }

  lemma TameOpenRows(c: Config, s: State, s': State)
    requires OpenRowOk(c, s) && s'.db.workers == s.db.workers && TameWrite(s, s')
    ensures OpenRowOk(c, s')
  {
    assert ActiveWorkers(s'.db) == ActiveWorkers(s.db);
  }

  lemma SteadyHandles(s: State, s': State)
    requires Handles(s) && s'.handles == s.handles && Steady(s, s')
    ensures Handles(s')
  {
  }

  /** A write that leaves every attempt alone. */
  lemma QuietWrite(c: Config, s: State, s': State)
    requires Inv(c, s) && TameWrite(s, s')
    requires s' == s.(db := s'.db) && s'.db.workers == s.db.workers
    requires forall t :: t in s.db.tasks && s'.db.tasks[t].state != s.db.tasks[t].state ==> StandingOk(s', t)
    ensures Inv(c, s')
  {
    TameReads(s, s');
    TameEvals(s, s');
    TameRows(s, s');
    TameRetires(s, s');
    TameOpenRows(c, s, s');
    QuietRest(c, s, s');
    SameCount(s, s');
  }

  lemma QuietRest(c: Config, s: State, s': State)
    requires UsedOk(s) && Standings(s) && Attempts(c, s) && Lives(s) && Handles(s) && LeaseOk(c, s) && HeldOk(s)
    requires s' == s.(db := s'.db) && s'.db.workers == s.db.workers && TameWrite(s, s')
    requires forall t :: t in s.db.tasks && s'.db.tasks[t].state != s.db.tasks[t].state ==> StandingOk(s', t)
    ensures UsedOk(s') && OwnerOk(s') && Standings(s') && Attempts(c, s') && Lives(s') && Handles(s')
        && LeaseOk(c, s') && HeldOk(s')
  {
    forall t | t in s'.db.tasks ensures StandingOk(s', t) {
      assert StandingOk(s, t);
    }
    forall w | w in s'.attempts ensures AttemptOk(c, s', w) {
      assert AttemptOk(c, s, w);
    }
    forall w | w in s'.live ensures LiveOk(s', w) {
      assert LiveOk(s, w);
    }
  }

  /** Steering keeps a live task live; in particular a paused task cannot be marked STUCK. */
  lemma SteerIsTame(s: State, t: TaskId, kind: Steering, now: int)
    ensures TameWrite(s, DoSteer(s, t, kind, now))
    ensures var db := DoSteer(s, t, kind, now).db;
            db.workers == s.db.workers
            && forall u :: u in s.db.tasks && db.tasks[u].state != s.db.tasks[u].state ==>
                 IsLive(s.db, u) && IsLive(db, u)
  {
  }

  lemma LiveToLive(s: State, s': State)
    requires Standings(s) && OwnerOk(s') && s'.owner == s.owner && s'.attempts == s.attempts
        && s'.db.workers == s.db.workers
    requires forall u :: u in s.db.tasks && u in s'.db.tasks && s'.db.tasks[u].state != s.db.tasks[u].state ==>
      IsLive(s.db, u) && IsLive(s'.db, u)
    ensures forall u :: u in s.db.tasks && u in s'.db.tasks && s'.db.tasks[u].state != s.db.tasks[u].state ==>
      StandingOk(s', u)
  {
    forall u | u in s.db.tasks && u in s'.db.tasks && s'.db.tasks[u].state != s.db.tasks[u].state
      ensures StandingOk(s', u)
    {
      assert StandingOk(s, u);
    }
  }

  lemma KeepSteer(c: Config, s: State, t: TaskId, kind: Steering, now: int)
    requires Inv(c, s)
    ensures Inv(c, DoSteer(s, t, kind, now))
  {
    SteerIsTame(s, t, kind, now);
    LiveToLive(s, DoSteer(s, t, kind, now));
    QuietWrite(c, s, DoSteer(s, t, kind, now));
  }

  lemma SweepIsTame(s: State, cutoff: int, now: int)
    ensures TameWrite(s, DoSweep(s, cutoff, now))
    ensures var db := DoSweep(s, cutoff, now).db;
            db.workers == s.db.workers
            && forall u :: u in s.db.tasks && db.tasks[u].state != s.db.tasks[u].state ==> db.tasks[u].state == Lost
  {
    var stale := StaleClaims(s.db, cutoff);
    forall t: TaskId { EvaluationsInsertAll(Expire(s.db, stale, now), ById(stale), DispatchLost, t); }
  }

  lemma KeepSweep(c: Config, s: State, cutoff: int, now: int)
    requires Inv(c, s)
    ensures Inv(c, DoSweep(s, cutoff, now))
  {
    SweepIsTame(s, cutoff, now);
    QuietWrite(c, s, DoSweep(s, cutoff, now));
  }

  lemma KeepAppend(c: Config, s: State, t: TaskId, event: EventKind)
    requires Inv(c, s)
    ensures Inv(c, DoAppend(c, s, t, event))
  {
    if !event.Evaluation? {
      forall u: TaskId { EvaluationsAppend(s.db, t, event, c.retention, u); }
    }
    QuietWrite(c, s, DoAppend(c, s, t, event));
  }

  // --- what logging does to the recorded evaluations ---

  lemma EvaluationsInsert(db: Db, t: TaskId, kind: EventKind, u: TaskId)
    ensures Evaluations(Insert(db, t, kind).log, u)
      == Evaluations(db.log, u) + if t == u && kind.Evaluation? then [kind.passed] else []
  {
    var log := Insert(db, t, kind).log;
    assert log[..|log| - 1] == db.log;
  }

  lemma {:induction false} EvaluationsInsertAll(db: Db, ids: seq<TaskId>, kind: EventKind, u: TaskId)
    requires !kind.Evaluation?
    ensures Evaluations(InsertAll(db, ids, kind).log, u) == Evaluations(db.log, u)
  {
    if ids == [] {
    } else {
      EvaluationsInsertAll(db, ids[..|ids| - 1], kind, u);
      EvaluationsInsert(InsertAll(db, ids[..|ids| - 1], kind), ids[|ids| - 1], kind, u);
    }
  }

  lemma {:induction false} EvaluationsDropStatus(log: seq<Event>, t: TaskId, cutoff: int, u: TaskId)
    ensures Evaluations(DropStatus(log, t, cutoff), u) == Evaluations(log, u)
  {
    if log == [] {
    } else {
      var front := DropStatus(log[..|log| - 1], t, cutoff);
      EvaluationsDropStatus(log[..|log| - 1], t, cutoff, u);
      assert (front + [log[|log| - 1]])[..|front|] == front;
    }
  }

  lemma EvaluationsAppend(db: Db, t: TaskId, kind: EventKind, retention: int, u: TaskId)
    requires !kind.Evaluation?
    ensures Evaluations(AppendEvent(db, t, kind, retention).After(db).log, u) == Evaluations(db.log, u)
  {
    if t in db.tasks {
      EvaluationsInsert(db, t, kind, u);
      var grown := Insert(db, t, kind);
      EvaluationsDropStatus(grown.log, t, RetentionCutoff(grown.log, t, if retention < 1 then 1 else retention), u);
    }
  }

  lemma {:induction false} EvaluationsWithout(log: seq<Event>, t: TaskId, u: TaskId)
    ensures Evaluations(Without(log, t), u) == if u == t then [] else Evaluations(log, u)
  {
    if log == [] {
    } else {
      var front := Without(log[..|log| - 1], t);
      EvaluationsWithout(log[..|log| - 1], t, u);
      assert (front + [log[|log| - 1]])[..|front|] == front;
    }
  }

  // --- the compensating write of an attempt ---

  lemma SettleIsTame(c: Config, s: State, w: WorkerId, now: int, storeOk: bool)
    requires w in s.attempts && s.attempts[w].pc.Settling?
    ensures TameWrite(s, DoSettle(c, s, w, now, storeOk))
    ensures Steady(s, DoSettle(c, s, w, now, storeOk))
    ensures DoSettle(c, s, w, now, storeOk).db.workers == s.db.workers
  {
  }

  lemma SettleStandings(c: Config, s: State, w: WorkerId, now: int, storeOk: bool)
    requires UsedOk(s) && Standings(s) && w in s.attempts && s.attempts[w].pc.Settling?
    ensures var s' := DoSettle(c, s, w, now, storeOk); UsedOk(s') && OwnerOk(s') && Standings(s')
  {
    var s' := DoSettle(c, s, w, now, storeOk);
    forall t | t in s'.db.tasks ensures StandingOk(s', t) {
      assert StandingOk(s, t);
    }
  }

  /** Whoever still has to settle finds its task reserved, over, or deleted. */
  lemma UnfinishedStanding(s: State, w: WorkerId)
    requires Standings(s) && w in s.attempts && !s.attempts[w].pc.Finished?
    ensures Gone(s, s.attempts[w].task) || StateIs(s.db, s.attempts[w].task, Dispatching)
  {
    var t := s.attempts[w].task;
    if t in s.db.tasks { assert StandingOk(s, t); }
  }

  lemma SettleAttempts(c: Config, s: State, w: WorkerId, now: int, storeOk: bool)
    requires Standings(s) && Attempts(c, s) && Lives(s) && w in s.attempts && s.attempts[w].pc.Settling?
    ensures var s' := DoSettle(c, s, w, now, storeOk); Attempts(c, s') && Lives(s')
  {
    var s' := DoSettle(c, s, w, now, storeOk);
    UnfinishedStanding(s, w);
    SettleIsTame(c, s, w, now, storeOk);
    forall x | x in s'.attempts ensures AttemptOk(c, s', x) {
      assert AttemptOk(c, s, x);
    }
    forall x | x in s'.live ensures LiveOk(s', x) {
      assert LiveOk(s, x);
    }
  }

  /** Lease bookkeeping is untouched when nobody starts or stops holding one. */
  lemma SameHolders(c: Config, s: State, s': State)
    requires LeaseOk(c, s) && HeldOk(s)
    requires s'.held == s.held && s'.retirements == s.retirements && Steady(s, s')
    requires forall w :: w in s'.db.workers && s'.db.workers[w].ended.None? ==>
      w in s.db.workers && s.db.workers[w].ended.None? && s'.db.workers[w].lease == s.db.workers[w].lease
    requires forall w :: w in s'.attempts ==>
      s'.attempts[w].pc.Holding() == if w in s.attempts then s.attempts[w].pc.Holding() else None
    ensures LeaseOk(c, s') && HeldOk(s')
  {
  }

  lemma SettleLeases(c: Config, s: State, w: WorkerId, now: int, storeOk: bool)
    requires LeaseOk(c, s) && HeldOk(s) && CountOk(s) && w in s.attempts && s.attempts[w].pc.Settling?
    ensures var s' := DoSettle(c, s, w, now, storeOk); LeaseOk(c, s') && HeldOk(s') && CountOk(s')
  {
    var s' := DoSettle(c, s, w, now, storeOk);
    SettleIsTame(c, s, w, now, storeOk);
    SameHolders(c, s, s');
    SameCount(s, s');
  }

  lemma KeepSettle(c: Config, s: State, w: WorkerId, now: int, storeOk: bool)
    requires Inv(c, s)
    ensures Inv(c, DoSettle(c, s, w, now, storeOk))
  {
    var s' := DoSettle(c, s, w, now, storeOk);
    if s' != s {
      SettleIsTame(c, s, w, now, storeOk);
      SettleStandings(c, s, w, now, storeOk);
      SettleAttempts(c, s, w, now, storeOk);
      TameAll(c, s, s');
      SettleLeases(c, s, w, now, storeOk);
    }
  }

  /** Everything a tame write keeps without looking at the attempts' progress. */
  lemma TameAll(c: Config, s: State, s': State)
    requires Inv(c, s) && TameWrite(s, s') && Steady(s, s')
    requires s'.retirements == s.retirements && s'.handles == s.handles && s'.db.workers == s.db.workers
    requires s.used <= s'.used && s'.owner == s.owner
    ensures Rows(s') && Handles(s') && Retires(s') && RowsInHand(s') && Reads(s') && Evals(s') && OpenRowOk(c, s')
  {
    TameReads(s, s');
    TameEvals(s, s');
    TameRows(s, s');
    TameRetires(s, s');
    TameOpenRows(c, s, s');
    SteadyHandles(s, s');
  }

  // --- activation ---

  ghost predicate Activates(c: Config, s: State, w: WorkerId, now: int, s': State) {
    && w in s.attempts && s.attempts[w].pc.Registered?
    && StateIs(s.db, s.attempts[w].task, Dispatching)
    && w !in s.db.workers
    && s' == WithPc(s, w, Finished(Activated)).(db := s'.db, started := s'.started)
    && s'.db == WithState(s.db, s.attempts[w].task, Running, now).(
         workers := s.db.workers[w := WorkerRow(s.attempts[w].task, s.attempts[w].pc.lease, now, None)])
    && s'.started == s.started[s.attempts[w].tick :=
         (if s.attempts[w].tick in s.started then s.started[s.attempts[w].tick] else 0) + 1]
  }

  lemma ActivateCases(c: Config, s: State, w: WorkerId, now: int, storeOk: bool)
    requires w in s.attempts && s.attempts[w].pc.Registered?
    ensures var s' := DoActivate(c, s, w, now, storeOk);
      || Activates(c, s, w, now, s')
      || (s' == WithPc(s, w, Failing(s.attempts[w].pc.lease, true, true))
          && (c.faults || !StateIs(s.db, s.attempts[w].task, Dispatching) || w in s.db.workers))
  {
  }

  lemma ActivateStandings(c: Config, s: State, w: WorkerId, now: int, s': State)
    requires UsedOk(s) && Standings(s) && Rows(s) && OpenRowOk(c, s) && Activates(c, s, w, now, s')
    ensures UsedOk(s') && OwnerOk(s') && Standings(s')
    ensures Rows(s') && OpenRowOk(c, s')
  {
    assert ActiveWorkers(s'.db) == ActiveWorkers(s.db) + {w};
    forall t | t in s'.db.tasks ensures StandingOk(s', t) {
      assert StandingOk(s, t);
    }
    ActivateRows(c, s, w, now, s');
  }

  lemma ActivateRows(c: Config, s: State, w: WorkerId, now: int, s': State)
    requires Rows(s) && Activates(c, s, w, now, s')
    ensures Rows(s')
  {
    forall x | x in s'.db.workers ensures RowOk(s', x) {
      if x != w { assert RowOk(s, x); }
    }
  }

  lemma ActivateAttempts(c: Config, s: State, w: WorkerId, now: int, s': State)
    requires Attempts(c, s) && Lives(s) && Handles(s) && Activates(c, s, w, now, s')
    ensures Attempts(c, s') && Lives(s') && Handles(s')
  {
    forall x | x in s'.attempts ensures AttemptOk(c, s', x) {
      assert AttemptOk(c, s, x);
    }
    forall x | x in s'.live ensures LiveOk(s', x) {
      assert LiveOk(s, x);
    }
  }

  lemma ActivateRetires(c: Config, s: State, w: WorkerId, now: int, s': State)
    requires Retires(s) && RowsInHand(s) && Activates(c, s, w, now, s')
    ensures Retires(s') && RowsInHand(s')
  {
    assert ActiveWorkers(s'.db) == ActiveWorkers(s.db) + {w};
    forall t | t in s'.retirements ensures RetireOk(s', t) && RowInHandOk(s', t) {
      assert RetireOk(s, t) && RowInHandOk(s, t);
    }
  }

  lemma ActivateLeases(c: Config, s: State, w: WorkerId, now: int, s': State)
    requires LeaseOk(c, s) && HeldOk(s) && Activates(c, s, w, now, s')
    ensures LeaseOk(c, s') && HeldOk(s')
  {
    assert w in s.attempts ==> !c.restarts ==> HeldFor(s, w, s.attempts[w].pc.Holding());
  }

  lemma ActivateCount(c: Config, s: State, w: WorkerId, now: int, s': State)
    requires CountOk(s) && Activates(c, s, w, now, s')
    ensures CountOk(s')
  {
    forall k | k in s'.started ensures s'.started[k] == |ActivatedBy(s', k)| {
      ActivateCountOf(c, s, w, now, s', k);
    }
  }

  lemma ActivateCountOf(c: Config, s: State, w: WorkerId, now: int, s': State, k: TickId)
    requires w in s.attempts && s'.attempts == s.attempts[w := s.attempts[w].(pc := Finished(Activated))]
    requires s.attempts[w].pc != Finished(Activated)
    ensures |ActivatedBy(s', k)| == |ActivatedBy(s, k)| + if k == s.attempts[w].tick then 1 else 0
  {
    if k == s.attempts[w].tick {
      assert ActivatedBy(s', k) == ActivatedBy(s, k) + {w};
    } else {
      assert ActivatedBy(s', k) == ActivatedBy(s, k);
    }
  }

  lemma NoRowYet(s: State, w: WorkerId)
    requires Rows(s) && w in s.attempts && s.attempts[w].pc != Finished(Activated)
    ensures w !in s.db.workers
  {
  }

  lemma ActivateTame(c: Config, s: State, w: WorkerId, now: int, s': State)
    requires Activates(c, s, w, now, s')
    ensures TameWrite(s, s')
  {
  }

  lemma ActivateInv(c: Config, s: State, w: WorkerId, now: int, s': State)
    requires Inv(c, s) && Activates(c, s, w, now, s')
    ensures Inv(c, s')
  {
    ActivateTame(c, s, w, now, s');
    ActivateStandings(c, s, w, now, s');
    ActivateAttempts(c, s, w, now, s');
    ActivateRetires(c, s, w, now, s');
    ActivateLeases(c, s, w, now, s');
    ActivateCount(c, s, w, now, s');
    TameReads(s, s');
    TameEvals(s, s');
  }

  /** A declined activation leaves the task over, unless the store failed. */
  lemma DeclinedFits(c: Config, s: State, w: WorkerId, s': State)
    requires Standings(s) && Lives(s) && Rows(s) && Handles(s)
    requires w in s.attempts && s.attempts[w].pc.Registered? && AttemptOk(c, s, w)
    requires s' == WithPc(s, w, Failing(s.attempts[w].pc.lease, true, true))
    requires c.faults || !StateIs(s.db, s.attempts[w].task, Dispatching) || w in s.db.workers
    ensures PcMoveFits(c, s, s', w) && LeaseMove(s, s', w)
  {
    UnfinishedStanding(s, w);
    NoRowYet(s, w);
  }

  lemma KeepActivate(c: Config, s: State, w: WorkerId, now: int, storeOk: bool)
    requires Inv(c, s)
    ensures Inv(c, DoActivate(c, s, w, now, storeOk))
  {
    if w in s.attempts && s.attempts[w].pc.Registered? {
      var s' := DoActivate(c, s, w, now, storeOk);
      ActivateCases(c, s, w, now, storeOk);
      if Activates(c, s, w, now, s') {
        ActivateInv(c, s, w, now, s');
      } else {
        assert AttemptOk(c, s, w);
        DeclinedFits(c, s, w, s');
        PcMoveInv(c, s, s', w);
      }
    }
  }

  // --- the claim ---

  ghost predicate Claims(
      c: Config, s: State, taken: set<TaskId>, k: TickId, ids: map<TaskId, WorkerId>, now: int, s': State) {
    && taken <= QueuedTasks(s.db)
    && k !in s.started && FreshIds(s, taken, ids)
    && s' == s.(
         db := Reserve(s.db, taken, now),
         attempts := s.attempts + NewAttempts(s.db.tasks, k, taken, ids),
         owner := s.owner + (map t | t in taken :: ids[t]),
         started := s.started[k := 0])
  }

  lemma ClaimCases(c: Config, s: State, k: TickId, ids: map<TaskId, WorkerId>, now: int)
    ensures var s' := DoClaim(c, s, k, ids, now);
            s' == s || Claims(c, s, Elements(Claimable(s.db, c.maxActive)), k, ids, now, s')
  {
    ClaimableRows(s.db, c.maxActive);
  }

  /** A claim seen task by task: each taken task gets one new attempt that speaks for it. */
  ghost predicate ClaimShape(s: State, taken: set<TaskId>, k: TickId, s': State) {
    && taken <= QueuedTasks(s.db) && k !in s.started
    && s'.held == s.held && s'.handles == s.handles && s'.retirements == s.retirements
    && s'.live == s.live && s'.used == s.used && s'.started == s.started[k := 0]
    && s'.db.workers == s.db.workers && s'.db.log == s.db.log && s'.db.tasks.Keys == s.db.tasks.Keys
    && (forall t :: t in s.db.tasks ==>
          && s'.db.tasks[t].gated == s.db.tasks[t].gated
          && s'.db.tasks[t].state == if t in taken then Dispatching else s.db.tasks[t].state)
    && (forall w :: w in s.attempts ==> w in s'.attempts && s'.attempts[w] == s.attempts[w])
    && (forall w :: w in s'.attempts && w !in s.attempts ==>
          && s'.attempts[w].task in taken && s'.attempts[w].task in s'.owner && s'.owner[s'.attempts[w].task] == w
          && s'.attempts[w].pc == Claimed && !s'.attempts[w].known && s'.attempts[w].tick == k)
    && (forall t :: t in taken ==>
          t in s'.owner && s'.owner[t] in s'.attempts && s'.owner[t] !in s.attempts
            && s'.attempts[s'.owner[t]].task == t)
    && (forall t :: t in s'.owner && t !in taken ==> t in s.owner && s'.owner[t] == s.owner[t])
    && (forall t :: t in s.owner ==> t in s'.owner)
  }

  lemma NewAttemptsAre(tasks: map<TaskId, TaskRow>, k: TickId, taken: set<TaskId>, ids: map<TaskId, WorkerId>)
    requires taken <= ids.Keys && taken <= tasks.Keys
    requires forall t, u :: t in taken && u in taken && t != u ==> ids[t] != ids[u]
    ensures var added := NewAttempts(tasks, k, taken, ids);
      && (forall w :: w in added ==>
            && added[w].task in taken && ids[added[w].task] == w
            && added[w].pc == Claimed && !added[w].known && added[w].tick == k)
      && (forall t :: t in taken ==> ids[t] in added && added[ids[t]].task == t)
  {
  }

  lemma ClaimHasShape(
      c: Config, s: State, taken: set<TaskId>, k: TickId, ids: map<TaskId, WorkerId>, now: int, s': State)
    requires Claims(c, s, taken, k, ids, now, s')
    ensures ClaimShape(s, taken, k, s')
  {
    NewAttemptsAre(s.db.tasks, k, taken, ids);
    ClaimJoins(s, taken, k, ids, NewAttempts(s.db.tasks, k, taken, ids), s.(db := Reserve(s.db, taken, now)), s');
  }

  lemma ClaimJoins(
      s: State, taken: set<TaskId>, k: TickId, ids: map<TaskId, WorkerId>, added: map<WorkerId, Attempt>,
      mid: State, s': State)
    requires taken <= QueuedTasks(s.db) && k !in s.started && FreshIds(s, taken, ids)
    requires forall w :: w in added ==>
      && added[w].task in taken && ids[added[w].task] == w
      && added[w].pc == Claimed && !added[w].known && added[w].tick == k
    requires forall t :: t in taken ==> ids[t] in added && added[ids[t]].task == t
    requires mid == s.(db := mid.db)
    requires mid.db.workers == s.db.workers && mid.db.log == s.db.log && mid.db.tasks.Keys == s.db.tasks.Keys
    requires forall t :: t in s.db.tasks ==>
      && mid.db.tasks[t].gated == s.db.tasks[t].gated
      && mid.db.tasks[t].state == if t in taken then Dispatching else s.db.tasks[t].state
    requires s' == mid.(
      attempts := s.attempts + added,
      owner := s.owner + (map t | t in taken :: ids[t]),
      started := s.started[k := 0])
    ensures ClaimShape(s, taken, k, s')
  {
  }

  lemma ClaimTame(s: State, taken: set<TaskId>, k: TickId, s': State)
    requires ClaimShape(s, taken, k, s')
    ensures TameWrite(s, s') && Steady(s, s')
  {
  }

  lemma ClaimOwnerOk(s: State, taken: set<TaskId>, k: TickId, s': State)
    requires UsedOk(s) && Standings(s) && ClaimShape(s, taken, k, s')
    ensures UsedOk(s') && OwnerOk(s')
  {
    forall w | w in s.attempts && s.attempts[w].pc != Finished(Compensated)
      ensures s.attempts[w].task !in taken
    {
      var t := s.attempts[w].task;
      if t in s.db.tasks { assert StandingOk(s, t); }
    }
  }

  lemma ClaimStandings(s: State, taken: set<TaskId>, k: TickId, s': State)
    requires Standings(s) && OwnerOk(s') && ClaimShape(s, taken, k, s')
    ensures Standings(s')
  {
    forall t | t in s'.db.tasks ensures StandingOk(s', t) {
      assert StandingOk(s, t);
    }
  }

  lemma ClaimAttempts(c: Config, s: State, taken: set<TaskId>, k: TickId, s': State)
    requires Attempts(c, s) && Lives(s) && ClaimShape(s, taken, k, s')
    ensures Attempts(c, s') && Lives(s')
  {
    forall w | w in s'.attempts ensures AttemptOk(c, s', w) {
      if w in s.attempts { assert AttemptOk(c, s, w); }
    }
    forall w | w in s'.live ensures LiveOk(s', w) {
      assert LiveOk(s, w);
    }
  }

  lemma ClaimCount(s: State, taken: set<TaskId>, k: TickId, s': State)
    requires CountOk(s) && ClaimShape(s, taken, k, s')
    ensures CountOk(s')
  {
    assert ActivatedBy(s', k) == {};
    forall j | j in s.started ensures j != k && ActivatedBy(s', j) == ActivatedBy(s, j) {
    }
  }

  lemma ClaimHolders(c: Config, s: State, taken: set<TaskId>, k: TickId, s': State)
    requires LeaseOk(c, s) && HeldOk(s) && ClaimShape(s, taken, k, s')
    ensures LeaseOk(c, s') && HeldOk(s')
  {
    SameHolders(c, s, s');
  }

  lemma ClaimOwners(s: State, taken: set<TaskId>, k: TickId, s': State)
    requires Standings(s) && ClaimShape(s, taken, k, s')
    ensures forall t :: WasActivated(s, t) ==> t in s'.owner && s'.owner[t] == s.owner[t]
  {
    forall t | t in taken ensures !WasActivated(s, t) {
      assert StandingOk(s, t);
    }
  }

  lemma KeepClaim(c: Config, s: State, k: TickId, ids: map<TaskId, WorkerId>, now: int)
    requires Inv(c, s)
    ensures Inv(c, DoClaim(c, s, k, ids, now))
  {
    ClaimCases(c, s, k, ids, now);
    var s' := DoClaim(c, s, k, ids, now);
    if s' != s {
      var taken := Elements(Claimable(s.db, c.maxActive));
      ClaimHasShape(c, s, taken, k, ids, now, s');
      ClaimInv(c, s, taken, k, s');
    }
  }

  lemma ClaimInv(c: Config, s: State, taken: set<TaskId>, k: TickId, s': State)
    requires Inv(c, s) && ClaimShape(s, taken, k, s')
    ensures Inv(c, s')
  {
    ClaimTame(s, taken, k, s');
    ClaimOwnerOk(s, taken, k, s');
    ClaimStandings(s, taken, k, s');
    ClaimAttempts(c, s, taken, k, s');
    ClaimOwners(s, taken, k, s');
    ClaimCount(s, taken, k, s');
    ClaimHolders(c, s, taken, k, s');
    TameReads(s, s');
    TameEvals(s, s');
    TameRows(s, s');
    TameRetires(s, s');
    TameOpenRows(c, s, s');
    SteadyHandles(s, s');
  }

  // --- the commit of a retirement ---

  /**
   * A committed retirement, seen task by task: its own task is over, the worker it
   * names is ended, and the evaluation it ran is on record.
   */
  ghost predicate CommitShape(s: State, t: TaskId, s': State) {
    && t in s.retirements && s.retirements[t].pc.Judged?
    && var r := s.retirements[t];
    && s' == WithRetirePc(s, t, Retired(r.pc.row, r.pc.task)).(db := s'.db)
    && s'.db.tasks.Keys == s.db.tasks.Keys
    && (forall u :: u in s.db.tasks && u != t ==> s'.db.tasks[u] == s.db.tasks[u])
    && (t in s.db.tasks ==> s'.db.tasks[t].gated == s.db.tasks[t].gated)
    && (r.pc.verdict.Some? ==> StateIs(s'.db, t, r.pc.verdict.value) && Legal(s.db.tasks[t].state, r.pc.verdict.value))
    && (r.pc.verdict.None? ==> s'.db.tasks == s.db.tasks && s'.db.log == s.db.log)
    && s'.db.workers.Keys == s.db.workers.Keys
    && (forall w :: w in s.db.workers ==>
          && s'.db.workers[w].task == s.db.workers[w].task && s'.db.workers[w].lease == s.db.workers[w].lease
          && (s'.db.workers[w].ended.Some? <==> s.db.workers[w].ended.Some? || r.worker == Some(w)))
    && (forall u: TaskId :: Evaluations(s'.db.log, u) ==
          Evaluations(s.db.log, u) +
          if u == t && r.pc.verdict.Some? && r.pc.event.Some? && r.pc.event.value.Evaluation?
          then [r.pc.event.value.passed] else [])
  }

  lemma CommitHasShape(c: Config, s: State, t: TaskId, now: int, storeOk: bool)
    requires t in s.retirements && s.retirements[t].pc.Judged?
    ensures var s' := DoCommit(c, s, t, now, storeOk);
            s' == WithRetirePc(s, t, Exiting) || CommitShape(s, t, s')
  {
    var r := s.retirements[t];
    var outcome := CommitWrite(s, r, t, now);
    if outcome.Committed? && (storeOk || !c.faults) {
      if r.pc.verdict.Some? {
        FinishShape(s, t, now);
      }
    }
  }

  lemma FinishShape(s: State, t: TaskId, now: int)
    requires t in s.retirements && s.retirements[t].pc.Judged? && s.retirements[t].pc.verdict.Some?
    requires CommitWrite(s, s.retirements[t], t, now).Committed?
    ensures var r := s.retirements[t];
            CommitShape(s, t, WithRetirePc(s, t, Retired(r.pc.row, r.pc.task)).(db := CommitWrite(s, r, t, now).db))
  {
    var r := s.retirements[t];
    var db' := CommitWrite(s, r, t, now).db;
    forall u: TaskId
      ensures Evaluations(db'.log, u) ==
        Evaluations(s.db.log, u) +
        if u == t && r.pc.verdict.Some? && r.pc.event.Some? && r.pc.event.value.Evaluation?
        then [r.pc.event.value.passed] else []
    {
      if r.pc.event.Some? { EvaluationsInsert(s.db, t, r.pc.event.value, u); }
    }
  }

  /** After a commit the task is over or deleted; nothing that was over comes back. */
  lemma CommitEnds(s: State, t: TaskId, s': State)
    requires CommitShape(s, t, s') && RetireOk(s, t) && ReadOk(s, t)
    ensures Gone(s', t)
    ensures forall u :: Gone(s, u) ==> Gone(s', u)
  {
  }

  lemma CommitWorkers(s: State, t: TaskId, s': State)
    requires Rows(s) && CommitShape(s, t, s') && RetireOk(s, t) && ReadOk(s, t)
    ensures Rows(s')
    ensures ActiveWorkers(s'.db) <= ActiveWorkers(s.db)
    ensures forall w :: w in ActiveWorkers(s.db) && s.db.workers[w].task != t ==> w in ActiveWorkers(s'.db)
  {
    CommitEnds(s, t, s');
    forall w | w in s'.db.workers ensures RowOk(s', w) {
      assert RowOk(s, w);
    }
    forall w | w in ActiveWorkers(s.db) && s.db.workers[w].task != t ensures w in ActiveWorkers(s'.db) {
      assert RowOk(s, w);
    }
  }

  lemma CommitStandings(s: State, t: TaskId, s': State)
    requires UsedOk(s) && Standings(s) && Rows(s) && CommitShape(s, t, s') && RetireOk(s, t) && ReadOk(s, t)
    ensures UsedOk(s') && OwnerOk(s') && Standings(s')
  {
    CommitEnds(s, t, s');
    CommitWorkers(s, t, s');
    forall u | u in s'.db.tasks ensures StandingOk(s', u) {
      assert StandingOk(s, u);
      if u != t && s.db.tasks[u].state.Live() { assert RowOk(s, s.owner[u]); }
    }
  }

  lemma CommitAttempts(c: Config, s: State, t: TaskId, s': State)
    requires Attempts(c, s) && Lives(s) && Handles(s) && CommitShape(s, t, s') && RetireOk(s, t) && ReadOk(s, t)
    ensures Attempts(c, s') && Lives(s') && Handles(s')
  {
    CommitEnds(s, t, s');
    forall w | w in s'.attempts ensures AttemptOk(c, s', w) {
      assert AttemptOk(c, s, w);
    }
    forall w | w in s'.live ensures LiveOk(s', w) {
      assert LiveOk(s, w);
    }
  }

  lemma CommitRetires(s: State, t: TaskId, s': State)
    requires Retires(s) && RowsInHand(s) && Reads(s) && Rows(s) && CommitShape(s, t, s')
    ensures Retires(s') && RowsInHand(s') && Reads(s')
  {
    assert RetireOk(s, t) && ReadOk(s, t);
    CommitWorkers(s, t, s');
    forall u | u in s'.retirements ensures RetireOk(s', u) {
      assert RetireOk(s, u);
    }
    CommitRows(s, t, s');
    CommitReads(s, t, s');
  }

  lemma CommitRows(s: State, t: TaskId, s': State)
    requires Retires(s) && RowsInHand(s) && CommitShape(s, t, s')
    ensures RowsInHand(s')
  {
    assert RetireOk(s, t) && RowInHandOk(s, t);
    forall u | u in s'.retirements ensures RowInHandOk(s', u) {
      assert RetireOk(s, u) && RowInHandOk(s, u);
    }
  }

  lemma CommitReads(s: State, t: TaskId, s': State)
    requires Reads(s) && CommitShape(s, t, s')
    ensures Reads(s')
  {
    forall u | u in s'.retirements ensures ReadOk(s', u) {
      assert ReadOk(s, u);
    }
  }

  lemma CommitEvals(s: State, t: TaskId, s': State)
    requires Evals(s) && CommitShape(s, t, s') && RetireOk(s, t) && ReadOk(s, t)
    ensures Evals(s')
  {
    forall u: TaskId ensures EvaluationOk(s', u) {
      assert EvaluationOk(s, u);
    }
  }

  /** Without store faults a retirement that names a worker names the one that is active. */
  lemma CommitOpenRows(c: Config, s: State, t: TaskId, s': State)
    requires Standings(s) && Rows(s) && Attempts(c, s) && OpenRowOk(c, s)
    requires CommitShape(s, t, s') && RetireOk(s, t) && ReadOk(s, t)
    ensures OpenRowOk(c, s')
  {
    CommitWorkers(s, t, s');
    if !c.faults {
      forall w | w in ActiveWorkers(s'.db) ensures IsLive(s'.db, s'.db.workers[w].task) {
        assert RowOk(s, w);
        if s.db.workers[w].task == t {
          var r := s.retirements[t];
          assert StandingOk(s, t);
          if r.worker.Some? { assert AttemptOk(c, s, r.worker.value); }
        }
      }
    }
  }

  lemma CommitLeases(c: Config, s: State, t: TaskId, s': State)
    requires LeaseOk(c, s) && HeldOk(s) && CountOk(s) && CommitShape(s, t, s')
    ensures LeaseOk(c, s') && HeldOk(s') && CountOk(s')
  {
    SameCount(s, s');
  }

  lemma CommitInv(c: Config, s: State, t: TaskId, s': State)
    requires Inv(c, s) && CommitShape(s, t, s')
    ensures Inv(c, s')
  {
    assert RetireOk(s, t) && ReadOk(s, t);
    CommitWorkers(s, t, s');
    CommitStandings(s, t, s');
    CommitAttempts(c, s, t, s');
    CommitRetires(s, t, s');
    CommitEvals(s, t, s');
    CommitOpenRows(c, s, t, s');
    CommitLeases(c, s, t, s');
  }

  lemma KeepCommit(c: Config, s: State, t: TaskId, now: int, storeOk: bool)
    requires Inv(c, s)
    ensures Inv(c, DoCommit(c, s, t, now, storeOk))
  {
    if t in s.retirements && s.retirements[t].pc.Judged? {
      var s' := DoCommit(c, s, t, now, storeOk);
      CommitHasShape(c, s, t, now, storeOk);
      if CommitShape(s, t, s') {
        CommitInv(c, s, t, s');
      } else {
        assert RetireFacts(s, t);
        RaisedFits(c, s, t);
        RetireMoveInv(c, s, s', t);
      }
    }
  }

  lemma RaisedFits(c: Config, s: State, t: TaskId)
    requires RetireFacts(s, t)
    ensures var s' := WithRetirePc(s, t, Exiting); RetireMoveFits(s, s', t) && RetireLeaseMove(c, s, s', t)
  {
  }

  // --- submission, deletion, process death ---

  lemma KeepCreate(c: Config, s: State, t: TaskId, row: TaskRow)
    requires Inv(c, s)
    ensures Inv(c, DoCreate(s, t, row))
  {
    var s' := DoCreate(s, t, row);
    if s' != s {
      CreateStandings(c, s, t, row);
      CreateRows(c, s, t, row);
      CreateAttempts(c, s, t, row);
      CreateRetires(s, t, row);
      CreateEvals(s, t, row);
      CreateLeases(c, s, t, row);
    }
  }

  lemma CreateStandings(c: Config, s: State, t: TaskId, row: TaskRow)
    requires UsedOk(s) && Standings(s) && DoCreate(s, t, row) != s
    ensures var s' := DoCreate(s, t, row); UsedOk(s') && Standings(s')
  {
    var s' := DoCreate(s, t, row);
    assert ActiveWorkers(s'.db) == ActiveWorkers(s.db);
    forall u | u in s'.db.tasks ensures StandingOk(s', u) {
      if u != t { assert StandingOk(s, u); }
    }
  }

  lemma CreateRows(c: Config, s: State, t: TaskId, row: TaskRow)
    requires UsedOk(s) && Rows(s) && OpenRowOk(c, s)
    ensures var s' := DoCreate(s, t, row); Rows(s') && OpenRowOk(c, s')
  {
    var s' := DoCreate(s, t, row);
    assert ActiveWorkers(s'.db) == ActiveWorkers(s.db);
    forall w | w in s'.db.workers ensures RowOk(s', w) {
      assert RowOk(s, w);
    }
  }

  lemma CreateAttempts(c: Config, s: State, t: TaskId, row: TaskRow)
    requires UsedOk(s) && Attempts(c, s) && Lives(s) && Handles(s)
    ensures var s' := DoCreate(s, t, row); Attempts(c, s') && Lives(s') && Handles(s')
  {
    var s' := DoCreate(s, t, row);
    forall w | w in s'.attempts ensures AttemptOk(c, s', w) {
      assert AttemptOk(c, s, w);
    }
    forall w | w in s'.live ensures LiveOk(s', w) {
      assert LiveOk(s, w);
    }
  }

  lemma CreateRetires(s: State, t: TaskId, row: TaskRow)
    requires UsedOk(s) && Retires(s) && RowsInHand(s) && Reads(s)
    ensures var s' := DoCreate(s, t, row); Retires(s') && RowsInHand(s') && Reads(s')
  {
    var s' := DoCreate(s, t, row);
    forall u | u in s'.retirements ensures RetireOk(s', u) && RowInHandOk(s', u) && ReadOk(s', u) {
      assert RetireOk(s, u) && RowInHandOk(s, u) && ReadOk(s, u);
    }
  }

  lemma CreateEvals(s: State, t: TaskId, row: TaskRow)
    requires UsedOk(s) && Evals(s)
    ensures Evals(DoCreate(s, t, row))
  {
    forall u: TaskId ensures EvaluationOk(DoCreate(s, t, row), u) {
      assert EvaluationOk(s, u);
    }
  }

  lemma CreateLeases(c: Config, s: State, t: TaskId, row: TaskRow)
    requires LeaseOk(c, s) && HeldOk(s) && CountOk(s)
    ensures var s' := DoCreate(s, t, row); LeaseOk(c, s') && HeldOk(s') && CountOk(s')
  {
    var s' := DoCreate(s, t, row);
    assert s'.db.workers == s.db.workers && s' == s.(db := s'.db, used := s'.used);
    SameHolders(c, s, s');
    SameCount(s, s');
  }

  lemma KeepDelete(c: Config, s: State, t: TaskId)
    requires Inv(c, s)
    ensures Inv(c, DoDelete(s, t))
  {
    DeleteStandings(c, s, t);
    DeleteAttempts(c, s, t);
    DeleteRetires(s, t);
    DeleteEvals(s, t);
    DeleteLeases(c, s, t);
  }

  lemma DeleteStandings(c: Config, s: State, t: TaskId)
    requires UsedOk(s) && Standings(s) && Rows(s) && OpenRowOk(c, s)
    ensures var s' := DoDelete(s, t); UsedOk(s') && Standings(s') && Rows(s') && OpenRowOk(c, s')
  {
    var s' := DoDelete(s, t);
    forall u | u in s'.db.tasks ensures StandingOk(s', u) {
      assert StandingOk(s, u);
      if s.db.tasks[u].state.Live() { assert RowOk(s, s.owner[u]); }
    }
    forall w | w in s'.db.workers ensures RowOk(s', w) {
      assert RowOk(s, w);
    }
    forall w | w in ActiveWorkers(s'.db) && !c.faults ensures IsLive(s'.db, s'.db.workers[w].task) {
      assert w in ActiveWorkers(s.db);
    }
  }

  lemma DeleteAttempts(c: Config, s: State, t: TaskId)
    requires Attempts(c, s) && Lives(s) && Handles(s)
    ensures var s' := DoDelete(s, t); Attempts(c, s') && Lives(s') && Handles(s')
  {
    var s' := DoDelete(s, t);
    forall w | w in s'.attempts ensures AttemptOk(c, s', w) {
      assert AttemptOk(c, s, w);
    }
    forall w | w in s'.live ensures LiveOk(s', w) {
      assert LiveOk(s, w);
    }
  }

  lemma DeleteRetires(s: State, t: TaskId)
    requires Retires(s) && RowsInHand(s) && Reads(s)
    ensures var s' := DoDelete(s, t); Retires(s') && RowsInHand(s') && Reads(s')
  {
    var s' := DoDelete(s, t);
    assert ActiveWorkers(s'.db) <= ActiveWorkers(s.db);
    forall u | u in s'.retirements ensures RetireOk(s', u) {
      assert RetireOk(s, u);
    }
    forall u | u in s'.retirements ensures RowInHandOk(s', u) {
      assert RetireOk(s, u) && RowInHandOk(s, u);
    }
    forall u | u in s'.retirements ensures ReadOk(s', u) {
      assert ReadOk(s, u);
      EvaluationsWithout(s.db.log, t, u);
    }
  }

  lemma DeleteEvals(s: State, t: TaskId)
    requires Evals(s)
    ensures Evals(DoDelete(s, t))
  {
    forall u: TaskId ensures EvaluationOk(DoDelete(s, t), u) {
      assert EvaluationOk(s, u);
      EvaluationsWithout(s.db.log, t, u);
    }
  }

  lemma DeleteLeases(c: Config, s: State, t: TaskId)
    requires LeaseOk(c, s) && HeldOk(s) && CountOk(s)
    ensures var s' := DoDelete(s, t); LeaseOk(c, s') && HeldOk(s') && CountOk(s')
  {
    SameCount(s, DoDelete(s, t));
  }

  lemma KeepWorkerDies(c: Config, s: State, w: WorkerId)
    requires Inv(c, s)
    ensures Inv(c, s.(live := s.live - {w}))
  {
    var s' := s.(live := s.live - {w});
    QuietMemory(c, s, s');
  }

  lemma KeepReattach(c: Config, s: State, t: TaskId, w: WorkerId)
    requires Inv(c, s)
    ensures Inv(c, DoReattach(s, t, w))
  {
    var s' := DoReattach(s, t, w);
    if s' != s {
      assert RowOk(s, w) && AttemptOk(c, s, w);
      QuietMemory(c, s, s');
    }
  }

  /** Only the set of external workers shrank, or a handle for an activated worker was added. */
  lemma QuietMemory(c: Config, s: State, s': State)
    requires Inv(c, s) && s' == s.(live := s'.live, handles := s'.handles) && s'.live <= s.live
    requires forall t :: t in s'.handles ==> (t in s.handles && s'.handles[t] == s.handles[t]) || HandleOk(s', t)
    ensures Inv(c, s')
  {
    QuietMemoryMost(c, s, s');
    QuietMemoryRetires(s, s');
    SameLog(s, s');
    SameCount(s, s');
  }

  lemma QuietMemoryMost(c: Config, s: State, s': State)
    requires UsedOk(s) && Standings(s) && Rows(s) && Attempts(c, s) && Lives(s) && Handles(s)
    requires OpenRowOk(c, s) && LeaseOk(c, s) && HeldOk(s)
    requires s' == s.(live := s'.live, handles := s'.handles) && s'.live <= s.live
    requires forall t :: t in s'.handles ==> (t in s.handles && s'.handles[t] == s.handles[t]) || HandleOk(s', t)
    ensures UsedOk(s') && Standings(s') && Rows(s') && Attempts(c, s') && Lives(s') && Handles(s')
    ensures OpenRowOk(c, s') && LeaseOk(c, s') && HeldOk(s')
  {
    forall x | x in s'.live ensures LiveOk(s', x) {
      assert LiveOk(s, x);
    }
    forall t | t in s'.handles ensures HandleOk(s', t) {
      if t in s.handles && s'.handles[t] == s.handles[t] { assert HandleOk(s, t); }
    }
  }

  lemma QuietMemoryRetires(s: State, s': State)
    requires Retires(s) && RowsInHand(s) && Reads(s)
    requires s' == s.(live := s'.live, handles := s'.handles)
    ensures Retires(s') && RowsInHand(s') && Reads(s')
  {
    forall t | t in s'.retirements ensures RetireOk(s', t) && RowInHandOk(s', t) && ReadOk(s', t) {
      assert RetireOk(s, t) && RowInHandOk(s, t) && ReadOk(s, t);
    }
  }

  lemma KeepRestart(c: Config, s: State)
    requires Inv(c, s)
    ensures Inv(c, DoRestart(c, s))
  {
    var s' := DoRestart(c, s);
    if s' != s {
      RestartStandings(c, s);
      RestartAttempts(c, s);
      SameLog(s, s');
      SameCount(s, s');
    }
  }

  lemma RestartStandings(c: Config, s: State)
    requires UsedOk(s) && Standings(s) && Rows(s) && OpenRowOk(c, s)
    ensures var s' := DoRestart(c, s); UsedOk(s') && Standings(s') && Rows(s') && OpenRowOk(c, s')
  {
    var s' := DoRestart(c, s);
    forall t | t in s'.db.tasks ensures StandingOk(s', t) {
      assert StandingOk(s, t);
    }
    forall w | w in s'.db.workers ensures RowOk(s', w) {
      assert RowOk(s, w);
    }
  }

  lemma RestartAttempts(c: Config, s: State)
    requires Attempts(c, s) && Lives(s) && c.restarts
    ensures var s' := DoRestart(c, s);
      && Attempts(c, s') && Lives(s') && Handles(s') && Retires(s')
      && RowsInHand(s') && Reads(s') && LeaseOk(c, s') && HeldOk(s')
  {
    var s' := DoRestart(c, s);
    forall w | w in s'.attempts ensures AttemptOk(c, s', w) {
      assert AttemptOk(c, s, w);
    }
    forall w | w in s'.live ensures LiveOk(s', w) {
      assert LiveOk(s, w);
    }
  }

  // --- one step, and whole runs ---

  predicate IsLaunchStep(a: Action) {
    a.PrepareFails? || a.PrepareOk? || a.StartFails? || a.StartOk? || a.BuildFails?
  }

  predicate IsRegisterStep(a: Action) {
    a.Register? || a.Activate? || a.StopStarted?
  }

  predicate IsCompensateStep(a: Action) {
    a.Unregister? || a.ReleaseLease? || a.Settle?
  }

  predicate IsReadStep(a: Action) {
    a.BeginRetire? || a.ReadWorker? || a.ReadTask? || a.ReadFails?
  }

  predicate IsDecideStep(a: Action) {
    a.StopRetiree? || a.Judge? || a.Commit?
  }

  predicate IsLeaveStep(a: Action) {
    a.ReleaseRetiree? || a.DropHandle? || a.ExitRetire?
  }

  predicate IsTableStep(a: Action) {
    a.CreateTask? || a.DeleteTask? || a.Claim? || a.Sweep? || a.Steer?
  }

  predicate IsMemoryStep(a: Action) {
    a.Append? || a.WorkerDies? || a.Reattach?
  }

  lemma LaunchStep(c: Config, s: State, a: Action)
    requires Inv(c, s) && IsLaunchStep(a)
    ensures Inv(c, Apply(c, s, a))
  {
    match a
    case PrepareFails(w, retryable) => KeepPrepareFails(c, s, w, retryable);
    case PrepareOk(w) => KeepPrepareOk(c, s, w);
    case StartFails(w, retryable) => KeepStartFails(c, s, w, retryable);
    case StartOk(w) => KeepStartOk(c, s, w);
    case BuildFails(w, retryable) => KeepBuildFails(c, s, w, retryable);
  }

  lemma RegisterStep(c: Config, s: State, a: Action)
    requires Inv(c, s) && IsRegisterStep(a)
    ensures Inv(c, Apply(c, s, a))
  {
    match a
    case Register(w) => KeepRegister(c, s, w);
    case Activate(w, now, ok) => KeepActivate(c, s, w, now, ok);
    case StopStarted(w, ok) => KeepStopStarted(c, s, w, ok);
  }

  lemma CompensateStep(c: Config, s: State, a: Action)
    requires Inv(c, s) && IsCompensateStep(a)
    ensures Inv(c, Apply(c, s, a))
  {
    match a
    case Unregister(w) => KeepUnregister(c, s, w);
    case ReleaseLease(w) => KeepReleaseLease(c, s, w);
    case Settle(w, now, ok) => KeepSettle(c, s, w, now, ok);
  }

  lemma ReadStep(c: Config, s: State, a: Action)
    requires Inv(c, s) && IsReadStep(a)
    ensures Inv(c, Apply(c, s, a))
  {
    match a
    case BeginRetire(t, worker, target, stop) => KeepBeginRetire(c, s, t, worker, target, stop);
    case ReadWorker(t) => KeepReadWorker(c, s, t);
    case ReadTask(t) => KeepReadTask(c, s, t);
    case ReadFails(t) => KeepReadFails(c, s, t);
  }

  lemma DecideStep(c: Config, s: State, a: Action)
    requires Inv(c, s) && IsDecideStep(a)
    ensures Inv(c, Apply(c, s, a))
  {
    match a
    case StopRetiree(t, ok) => KeepStopRetiree(c, s, t, ok);
    case Judge(t, passed) => KeepJudge(c, s, t, passed);
    case Commit(t, now, ok) => KeepCommit(c, s, t, now, ok);
  }

  lemma LeaveStep(c: Config, s: State, a: Action)
    requires Inv(c, s) && IsLeaveStep(a)
    ensures Inv(c, Apply(c, s, a))
  {
    match a
    case ReleaseRetiree(t) => KeepReleaseRetiree(c, s, t);
    case DropHandle(t) => KeepDropHandle(c, s, t);
    case ExitRetire(t) => KeepExitRetire(c, s, t);
  }

  lemma TableStep(c: Config, s: State, a: Action)
    requires Inv(c, s) && IsTableStep(a)
    ensures Inv(c, Apply(c, s, a))
  {
    match a
    case CreateTask(t, row) => KeepCreate(c, s, t, row);
    case DeleteTask(t) => KeepDelete(c, s, t);
    case Claim(k, ids, now) => KeepClaim(c, s, k, ids, now);
    case Sweep(cutoff, now) => KeepSweep(c, s, cutoff, now);
    case Steer(t, kind, now) => KeepSteer(c, s, t, kind, now);
  }

  lemma MemoryStep(c: Config, s: State, a: Action)
    requires Inv(c, s) && IsMemoryStep(a)
    ensures Inv(c, Apply(c, s, a))
  {
    match a
    case Append(t, event) => KeepAppend(c, s, t, event);
    case WorkerDies(w) => KeepWorkerDies(c, s, w);
    case Reattach(t, w) => KeepReattach(c, s, t, w);
  }

  lemma StepKeepsInv(c: Config, s: State, a: Action)
    requires Inv(c, s)
    ensures Inv(c, Apply(c, s, a))
  {
    if IsLaunchStep(a) {
      LaunchStep(c, s, a);
    } else if IsRegisterStep(a) {
      RegisterStep(c, s, a);
    } else if IsCompensateStep(a) {
      CompensateStep(c, s, a);
    } else if IsTableStep(a) {
      TableStep(c, s, a);
    } else {
      RestKeepsInv(c, s, a);
    }
  }

  lemma RestKeepsInv(c: Config, s: State, a: Action)
    requires Inv(c, s)
    requires !IsLaunchStep(a) && !IsRegisterStep(a) && !IsCompensateStep(a) && !IsTableStep(a)
    ensures Inv(c, Apply(c, s, a))
  {
    if IsReadStep(a) {
      ReadStep(c, s, a);
    } else if IsDecideStep(a) {
      DecideStep(c, s, a);
    } else if IsLeaveStep(a) {
      LeaveStep(c, s, a);
    } else if IsMemoryStep(a) {
      MemoryStep(c, s, a);
    } else {
      KeepRestart(c, s);
    }
  }

  lemma InitInv(c: Config)
    ensures Inv(c, Init())
  {
    forall t: TaskId ensures EvaluationOk(Init(), t) {
    }
  }

  lemma {:induction false} RunKeepsInv(c: Config, s: State, actions: seq<Action>)
    requires Inv(c, s)
    ensures Inv(c, Run(c, s, actions))
    decreases |actions|
  {
    if actions == [] {
    } else {
      StepKeepsInv(c, s, actions[0]);
      RunKeepsInv(c, Apply(c, s, actions[0]), actions[1..]);
    }
  }
}
