/** How one retirement moves, under its own steps and everybody else's. */
module RetireSteps {
  import opened Basics
  import opened Lifecycle
  import opened Tables
  import opened Protocol
  import opened Invariant
  import opened Preservation
  import opened Theorems
  import opened Callers
  import opened Gates
  import opened Leases
  import opened Workers

  predicate OfRetirement(a: Action) {
    IsReadStep(a) || IsDecideStep(a) || IsLeaveStep(a)
  }

  /** A step of anybody but the call that holds the retirement of `t`. */
  predicate ForeignToRetire(t: TaskId, a: Action) {
    !a.Restart? && (OfRetirement(a) ==> a.t != t)
  }

  /** How a task can have moved while its retirement was held but not advanced. */
  ghost predicate Outlook(db: Db, db': Db, t: TaskId) {
    t in db'.tasks ==>
      && t in db.tasks
      && (db.tasks[t].state.Live() ==> db'.tasks[t].state.Live())
      && (db.tasks[t].state.Terminal() ==> db'.tasks[t].state == db.tasks[t].state)
      && SameRecord(db, db', t)
  }

  lemma ForeignKeepsRetirement(c: Config, s: State, t: TaskId, a: Action)
    requires t in s.retirements && ForeignToRetire(t, a)
    ensures t in Apply(c, s, a).retirements && Apply(c, s, a).retirements[t] == s.retirements[t]
  {
    if OfAttempt(a) {
      AttemptShape(c, s, a);
    } else if OfRetirement(a) {
      if IsReadStep(a) {
        ForeignRead(c, s, t, a);
      } else if IsDecideStep(a) {
        ForeignDecision(c, s, t, a);
      } else {
        ForeignLeave(c, s, t, a);
      }
    } else {
      OthersKeepRetirements(c, s, a);
    }
  }

  ghost predicate Untouched(s: State, s': State, t: TaskId) {
    t in s'.retirements && t in s.retirements && s'.retirements[t] == s.retirements[t]
  }

  lemma ForeignRead(c: Config, s: State, t: TaskId, a: Action)
    requires t in s.retirements && IsReadStep(a) && a.t != t
    ensures Untouched(s, Apply(c, s, a), t)
  {
    match a
    case BeginRetire(u, worker, target, stop) => ForeignBegin(s, t, u, worker, target, stop);
    case ReadWorker(u) => ForeignReadWorker(s, t, u);
    case ReadTask(u) => ForeignReadTask(s, t, u);
    case ReadFails(u) => ForeignReadFails(c, s, t, u);
  }

  lemma ForeignBegin(s: State, t: TaskId, u: TaskId, worker: Option<WorkerId>, target: TaskState, stop: bool)
    requires t in s.retirements && u != t
    ensures Untouched(s, DoBeginRetire(s, u, worker, target, stop), t)
  {
  }

  lemma ForeignReadWorker(s: State, t: TaskId, u: TaskId)
    requires t in s.retirements && u != t
    ensures Untouched(s, DoReadWorker(s, u), t)
  {
  }

  lemma ForeignReadTask(s: State, t: TaskId, u: TaskId)
    requires t in s.retirements && u != t
    ensures Untouched(s, DoReadTask(s, u), t)
  {
  }

  lemma ForeignReadFails(c: Config, s: State, t: TaskId, u: TaskId)
    requires t in s.retirements && u != t
    ensures Untouched(s, DoReadFails(c, s, u), t)
  {
  }

  lemma ForeignDecision(c: Config, s: State, t: TaskId, a: Action)
    requires t in s.retirements && IsDecideStep(a) && a.t != t
    ensures t in Apply(c, s, a).retirements && Apply(c, s, a).retirements[t] == s.retirements[t]
  {
  }

  lemma ForeignLeave(c: Config, s: State, t: TaskId, a: Action)
    requires t in s.retirements && IsLeaveStep(a) && a.t != t
    ensures t in Apply(c, s, a).retirements && Apply(c, s, a).retirements[t] == s.retirements[t]
  {
  }

  lemma OthersKeepRetirements(c: Config, s: State, a: Action)
    requires !OfAttempt(a) && !OfRetirement(a) && !a.Restart?
    ensures Apply(c, s, a).retirements == s.retirements
  {
  }

  lemma ForeignOutlook(c: Config, s: State, t: TaskId, a: Action)
    requires Inv(c, s) && t in s.used && ForeignToRetire(t, a)
    ensures Outlook(s.db, Apply(c, s, a).db, t)
  {
    StepKeepsRecord(c, s, a, t);
    if t !in s.db.tasks {
      NotRecreated(c, s, a, t);
    } else if t in Apply(c, s, a).db.tasks {
      if s.db.tasks[t].state.Terminal() {
        OverStays(c, s, a, t);
      } else {
        LiveStays(c, s, a, t);
      }
    }
  }

  lemma OverStays(c: Config, s: State, a: Action, t: TaskId)
    requires Inv(c, s) && t in s.db.tasks && s.db.tasks[t].state.Terminal() && t in Apply(c, s, a).db.tasks
    requires ForeignToRetire(t, a)
    ensures Apply(c, s, a).db.tasks[t].state == s.db.tasks[t].state
  {
    TerminalLeftOnlyFromLost(c, s, a, t);
  }

  lemma LiveStays(c: Config, s: State, a: Action, t: TaskId)
    requires t in s.db.tasks && t in Apply(c, s, a).db.tasks && ForeignToRetire(t, a)
    ensures s.db.tasks[t].state.Live() ==> Apply(c, s, a).db.tasks[t].state.Live()
  {
    StateMoves(c, s, a, t);
  }

  /** The call's own bookkeeping steps leave the database alone. */
  lemma BookkeepingKeepsDb(c: Config, s: State, a: Action)
    requires OfRetirement(a) && !a.Commit?
    ensures Apply(c, s, a).db == s.db
  {
    QuietDb(c, s, a);
  }

  /** What a caller of `retire` gets: no state, a committed terminal state, or an exception. */
  datatype Answer = NoState | Ended(state: TaskState) | Error

  /**
   * What the answer to a STUCK call says: an exception means the task is paused (or the
   * store failed), no state means it was stuck already or does not exist, and STUCK means
   * the write was committed exactly if the task is still live.
   */
  ghost predicate StuckAnswer(c: Config, s: State, t: TaskId, reply: Answer) {
    match reply
    case NoState => t !in s.db.tasks || StateIs(s.db, t, Stuck)
    case Ended(state) => state == Stuck && (IsLive(s.db, t) <==> StateIs(s.db, t, Stuck))
    case Error => c.faults || StateIs(s.db, t, Paused)
  }

  /** The task of an activated worker is over, and its handle is gone. */
  ghost predicate HandleAway(s: State, t: TaskId) {
    t !in s.handles && t in s.used && Gone(s, t) && WasActivated(s, t)
  }

  /** What lasts, once it is so: stopped workers, leases given back, the dropped handle. */
  ghost predicate Lasting(s: State, s': State, t: TaskId) {
    && (forall x, w :: CanName(s, x, Some(w)) ==> CanName(s', x, Some(w)))
    && (forall x, w :: Quenched(s, x, w) ==> Quenched(s', x, w))
    && (forall w :: Bare(s, w) ==> Bare(s', w))
    && (HandleAway(s, t) ==> HandleAway(s', t))
    && (WasActivated(s, t) ==> WasActivated(s', t))
  }

  lemma StepLasts(c: Config, s: State, a: Action, t: TaskId)
    requires Inv(c, s)
    ensures Lasting(s, Apply(c, s, a), t)
  {
    forall x, w | CanName(s, x, Some(w)) ensures CanName(Apply(c, s, a), x, Some(w)) {
      NameStays(c, s, a, x, w);
    }
    forall x, w | Quenched(s, x, w) ensures Quenched(Apply(c, s, a), x, w) {
      QuenchedStays(c, s, a, x, w);
    }
    forall w | Bare(s, w) ensures Bare(Apply(c, s, a), w) {
      BareStays(c, s, a, w);
    }
    if WasActivated(s, t) { ActivatedStays(c, s, a, t); }
    if HandleAway(s, t) { HandleStaysAway(c, s, a, t); }
  }

  lemma HandleStaysAway(c: Config, s: State, a: Action, t: TaskId)
    requires Inv(c, s) && HandleAway(s, t)
    ensures HandleAway(Apply(c, s, a), t)
  {
    GoneForever(c, s, a, t);
    ActivatedStays(c, s, a, t);
    NotInstalled(c, s, a, t);
  }

  lemma NotInstalled(c: Config, s: State, a: Action, t: TaskId)
    requires OwnerOk(s) && HandleAway(s, t)
    ensures t !in Apply(c, s, a).handles
  {
    if a.Restart? {
    } else {
      HandlesChangeExactly(c, s, a);
      if a.Register? && a.w in s.attempts && s.attempts[a.w].pc.Started? {
        assert s.owner[s.attempts[a.w].task] == a.w;
      }
    }
  }

  /** The arguments of a call, and the handle it found. */
  predicate SameCall(r: Retirement, r': Retirement) {
    r'.worker == r.worker && r'.target == r.target && r'.stop == r.stop && r'.handle == r.handle
  }

  /** The same call, still with the rows it has read. */
  predicate SameRows(r: Retirement, r': Retirement) {
    && SameCall(r, r') && r.pc.Uncommitted() && r'.pc.Uncommitted()
    && r'.pc.task == r.pc.task && r'.pc.Row() == r.pc.Row()
  }

  /** Where one own step takes a retirement. */
  ghost predicate Moved(c: Config, before: Retirement, a: Action, s': State, t: TaskId)
    requires OfRetirement(a)
  {
    match a
    case ReadWorker(_) =>
      before.pc.Begun? ==>
        && t in s'.retirements && SameCall(before, s'.retirements[t]) && s'.retirements[t].pc.WorkerRead?
        && (before.worker.Some? && before.worker.value in s'.db.workers ==> s'.retirements[t].pc.row.Some?)
    case ReadTask(_) =>
      before.pc.WorkerRead? ==>
        && t in s'.retirements && SameCall(before, s'.retirements[t])
        && (s'.retirements[t].pc.Dropping? || s'.retirements[t].pc.TaskRead?)
        && (s'.retirements[t].pc.TaskRead? ==> t in s'.db.tasks && s'.retirements[t].pc.task == s'.db.tasks[t])
        && (s'.retirements[t].pc.TaskRead? ==> s'.retirements[t].pc.row == before.pc.row)
        && (s'.retirements[t].pc.Dropping? ==> Gone(s', t))
    case ReadFails(_) =>
      c.faults && (before.pc.Begun? || before.pc.WorkerRead?) ==>
        t in s'.retirements && s'.retirements[t].pc.Exiting?
    case StopRetiree(_, ok) =>
      before.pc.TaskRead? ==>
        && t in s'.retirements && SameRows(before, s'.retirements[t]) && s'.retirements[t].pc.Stopped?
        && (before.stop && ok && before.handle.Some? ==> before.handle.value !in s'.live)
    case Judge(_, passed) =>
      before.pc.Stopped? ==>
        && t in s'.retirements && SameRows(before, s'.retirements[t]) && s'.retirements[t].pc.Judged?
        && Judgement(before.target, before.pc.task.gated, passed, s'.retirements[t].pc)
    case ReleaseRetiree(_) =>
      before.pc.Retired? ==>
        t in s'.retirements && SameCall(before, s'.retirements[t]) && s'.retirements[t].pc.Dropping?
    case DropHandle(_) =>
      before.pc.Dropping? ==> t in s'.retirements && s'.retirements[t].pc.Exiting? && t !in s'.handles
    case ExitRetire(_) => before.pc.Exiting? ==> t !in s'.retirements
    case _ => true
  }

  /** What a retirement that has read both rows has in hand, as against the state `s0` it began in. */
  ghost predicate HasRead(
      c: Config, s0: State, r: Retirement, t: TaskId, worker: Option<WorkerId>, target: TaskState, stop: bool)
  {
    && r.pc.TaskRead? && r.worker == worker && r.target == target && r.stop == stop
    && r.handle == (if t in s0.handles then Some(s0.handles[t]) else None)
    && t in s0.db.tasks && r.pc.task.gated == s0.db.tasks[t].gated
    && (IsLive(s0.db, t) ==> r.pc.task.state.Live() && (!c.faults ==> worker.Some? && r.pc.row.Some?))
  }

  /** What a retirement that ended its task in `state` has done since it read both rows, in `s0`. */
  ghost predicate Concluded(s0: State, s: State, t: TaskId, stopOk: bool, passed: bool, state: TaskState)
    requires t in s0.retirements && s0.retirements[t].pc.TaskRead?
  {
    var r := s0.retirements[t];
    && state.Terminal() && (t in s.db.tasks ==> StateIs(s.db, t, state))
    && Promised(r.target, r.pc.task.gated, passed, state)
    && (r.target == Done && r.pc.task.gated && t in s.db.tasks ==> Evaluations(s.db.log, t) == [passed])
    && (r.stop && stopOk && r.handle.Some? && CanName(s0, t, r.handle) ==> Quenched(s, t, r.handle.value))
    && (r.pc.row.Some? ==> r.worker.Some? && Bare(s, r.worker.value))
    && (WasActivated(s0, t) ==> HandleAway(s, t))
  }

  /** A live task's attempt has been activated, and a registered handle can be named. */
  lemma LiveWasActivated(c: Config, actions: seq<Action>, s: State, t: TaskId)
    requires s == Reached(c, actions)
    ensures IsLive(s.db, t) ==> WasActivated(s, t)
    ensures t in s.handles ==> CanName(s, t, Some(s.handles[t]))
  {
    ReachedInv(c, actions);
    if IsLive(s.db, t) { assert StandingOk(s, t); }
    if t in s.handles { assert HandleOk(s, t); }
  }

  lemma StepMoves(c: Config, s: State, a: Action)
    requires OfRetirement(a) && !a.Commit? && a.t in s.retirements
    ensures Moved(c, s.retirements[a.t], a, Apply(c, s, a), a.t)
  {
    match a
    case BeginRetire(_, _, _, _) =>
    case ReadWorker(t) => ReadWorkerMoves(c, s, t);
    case ReadTask(t) => ReadTaskMoves(c, s, t);
    case ReadFails(t) => ReadFailsMoves(c, s, t);
    case StopRetiree(t, ok) => StopRetireeMoves(c, s, t, ok);
    case Judge(t, passed) => JudgeMoves(c, s, t, passed);
    case ReleaseRetiree(t) => ReleaseRetireeMoves(c, s, t);
    case DropHandle(t) => DropHandleMoves(c, s, t);
    case ExitRetire(t) => ExitRetireMoves(c, s, t);
  }

  lemma ReadWorkerMoves(c: Config, s: State, t: TaskId)
    requires t in s.retirements
    ensures Moved(c, s.retirements[t], ReadWorker(t), DoReadWorker(s, t), t)
  {
  }

  lemma ReadTaskMoves(c: Config, s: State, t: TaskId)
    requires t in s.retirements
    ensures Moved(c, s.retirements[t], ReadTask(t), DoReadTask(s, t), t)
  {
  }

  lemma ReadFailsMoves(c: Config, s: State, t: TaskId)
    requires t in s.retirements
    ensures Moved(c, s.retirements[t], ReadFails(t), DoReadFails(c, s, t), t)
  {
  }

  lemma StopRetireeMoves(c: Config, s: State, t: TaskId, ok: bool)
    requires t in s.retirements
    ensures Moved(c, s.retirements[t], StopRetiree(t, ok), DoStopRetiree(s, t, ok), t)
  {
  }

  lemma JudgeMoves(c: Config, s: State, t: TaskId, passed: bool)
    requires t in s.retirements
    ensures Moved(c, s.retirements[t], Judge(t, passed), DoJudge(s, t, passed), t)
  {
  }

  lemma ReleaseRetireeMoves(c: Config, s: State, t: TaskId)
    requires t in s.retirements
    ensures Moved(c, s.retirements[t], ReleaseRetiree(t), DoReleaseRetiree(s, t), t)
  {
  }

  lemma DropHandleMoves(c: Config, s: State, t: TaskId)
    requires t in s.retirements
    ensures Moved(c, s.retirements[t], DropHandle(t), DoDropHandle(s, t), t)
  {
  }

  lemma ExitRetireMoves(c: Config, s: State, t: TaskId)
    requires t in s.retirements
    ensures Moved(c, s.retirements[t], ExitRetire(t), DoExitRetire(s, t), t)
  {
  }

  ghost predicate CommitLands(c: Config, s: State, t: TaskId, now: int, storeOk: bool)
    requires t in s.retirements && s.retirements[t].pc.Judged?
  {
    CommitWrite(s, s.retirements[t], t, now).Committed? && (storeOk || !c.faults)
  }

  lemma CommitReply(c: Config, s: State, t: TaskId, now: int, storeOk: bool)
    requires Retires(s) && Reads(s) && t in s.retirements && s.retirements[t].pc.Judged?
    ensures var s' := DoCommit(c, s, t, now, storeOk);
            var pc := s.retirements[t].pc;
            var lands := CommitLands(c, s, t, now, storeOk);
      && t in s'.retirements && SameCall(s.retirements[t], s'.retirements[t])
      && s'.retirements[t].pc == (if lands then Retired(pc.row, pc.task) else Exiting)
      && (t !in s.db.tasks ==> t !in s'.db.tasks)
      && (lands && pc.verdict.Some? ==> StateIs(s'.db, t, pc.verdict.value) && pc.verdict.value.Terminal())
      && (pc.task.state.Live() && t in s.db.tasks && !c.faults ==> lands && pc.verdict.Some?)
  {
    CommitProgress(c, s, t, now, storeOk);
    CommitOutcome(c, s, t, now, storeOk);
  }

  lemma CommitProgress(c: Config, s: State, t: TaskId, now: int, storeOk: bool)
    requires t in s.retirements && s.retirements[t].pc.Judged?
    ensures var s' := DoCommit(c, s, t, now, storeOk);
            var pc := s.retirements[t].pc;
      && t in s'.retirements && SameCall(s.retirements[t], s'.retirements[t])
      && s'.retirements[t].pc == (if CommitLands(c, s, t, now, storeOk) then Retired(pc.row, pc.task) else Exiting)
      && (t !in s.db.tasks ==> t !in s'.db.tasks)
  {
    if CommitLands(c, s, t, now, storeOk) {
      LandedCommit(c, s, t, now, storeOk);
    } else {
      DeclinedCommit(c, s, t, now, storeOk);
    }
    KeysKept(c, s, Commit(t, now, storeOk));
  }

  lemma LandedCommit(c: Config, s: State, t: TaskId, now: int, storeOk: bool)
    requires t in s.retirements && s.retirements[t].pc.Judged? && CommitLands(c, s, t, now, storeOk)
    ensures var pc := s.retirements[t].pc; var s' := DoCommit(c, s, t, now, storeOk);
      s' == WithRetirePc(s, t, Retired(pc.row, pc.task)).(db := s'.db)
  {
  }

  lemma DeclinedCommit(c: Config, s: State, t: TaskId, now: int, storeOk: bool)
    requires t in s.retirements && s.retirements[t].pc.Judged? && !CommitLands(c, s, t, now, storeOk)
    ensures DoCommit(c, s, t, now, storeOk) == WithRetirePc(s, t, Exiting)
  {
  }

  lemma CommitOutcome(c: Config, s: State, t: TaskId, now: int, storeOk: bool)
    requires Retires(s) && Reads(s) && t in s.retirements && s.retirements[t].pc.Judged?
    ensures var s' := DoCommit(c, s, t, now, storeOk);
            var pc := s.retirements[t].pc;
            var lands := CommitLands(c, s, t, now, storeOk);
      && (lands && pc.verdict.Some? ==> StateIs(s'.db, t, pc.verdict.value) && pc.verdict.value.Terminal())
      && (pc.task.state.Live() && t in s.db.tasks && !c.faults ==> lands && pc.verdict.Some?)
  {
    assert RetireOk(s, t) && ReadOk(s, t);
    VerdictIsTerminal(s, t);
    if t in s.db.tasks && s.retirements[t].pc.verdict.Some? { CommitMovesTo(c, s, t, now, storeOk); }
  }

  /** While no store access fails, the worker named for a live task has its row. */
  lemma ActiveRowThere(c: Config, s: State, t: TaskId)
    requires Inv(c, s) && !c.faults && t in s.retirements && IsLive(s.db, t)
    ensures s.retirements[t].worker.Some? && s.retirements[t].worker.value in s.db.workers
  {
    RetirementNamesActiveWorker(c, s, t);
    ActiveIsOwner(c, s, t);
    assert s.owner[t] in ActiveOf(s.db, t);
  }
}
