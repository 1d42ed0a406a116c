/** The evaluator gate: what is recorded about a task, and which state it ends in. */
module Gates {
  import opened Basics
  import opened Lifecycle
  import opened Tables
  import opened Queueing
  import opened Protocol
  import opened Invariant
  import opened Preservation
  import opened Theorems

  /** In every reachable state a recorded evaluation agrees with the task: passed means DONE, failed means FAILED. */
  lemma EvaluationDecides(c: Config, actions: seq<Action>, t: TaskId)
    requires t in Reached(c, actions).db.tasks
    ensures var db := Reached(c, actions).db;
      && (Evaluations(db.log, t) == [true] ==> db.tasks[t].state == Done)
      && (Evaluations(db.log, t) == [false] ==> db.tasks[t].state == Failed)
      && (Evaluations(db.log, t) != [] ==> db.tasks[t].gated && |Evaluations(db.log, t)| == 1)
  {
    ReachedInv(c, actions);
    assert EvaluationOk(Reached(c, actions), t);
  }

  /** Nothing but the commit of its own retirement adds to what is recorded of a task. */
  ghost predicate SameRecord(db: Db, db': Db, t: TaskId) {
    t in db.tasks && t in db'.tasks ==>
      db'.tasks[t].gated == db.tasks[t].gated && Evaluations(db'.log, t) == Evaluations(db.log, t)
  }

  lemma StepKeepsRecord(c: Config, s: State, a: Action, t: TaskId)
    requires !(a.Commit? && a.t == t)
    ensures SameRecord(s.db, Apply(c, s, a).db, t)
  {
    if IsTableStep(a) {
      TableKeepsRecord(c, s, a, t);
    } else if a.Settle? {
      SettleKeepsRecord(c, s, a.w, a.now, a.storeOk, t);
    } else if a.Activate? {
      ActivateKeepsRecord(c, s, a.w, a.now, a.storeOk, t);
    } else if a.Append? {
      AppendKeepsRecord(c, s, a.t, a.event, t);
    } else if a.Commit? {
      CommitKeepsOthers(c, s, a.t, a.now, a.storeOk, t);
    } else {
      QuietDb(c, s, a);
    }
  }

  lemma TableKeepsRecord(c: Config, s: State, a: Action, t: TaskId)
    requires IsTableStep(a)
    ensures SameRecord(s.db, Apply(c, s, a).db, t)
  {
    match a
    case CreateTask(u, row) => CreateKeepsRecord(s, u, row, t);
    case DeleteTask(u) => EvaluationsWithout(s.db.log, u, t);
    case Claim(k, ids, now) => ClaimKeepsRecord(c, s, k, ids, now, t);
    case Sweep(cutoff, now) => SweepIsTame(s, cutoff, now);
    case Steer(u, kind, now) => SteerIsTame(s, u, kind, now);
  }

  lemma CreateKeepsRecord(s: State, u: TaskId, row: TaskRow, t: TaskId)
    ensures SameRecord(s.db, DoCreate(s, u, row).db, t)
  {
  }

  lemma ClaimKeepsRecord(c: Config, s: State, k: TickId, ids: map<TaskId, WorkerId>, now: int, t: TaskId)
    ensures SameRecord(s.db, DoClaim(c, s, k, ids, now).db, t)
  {
  }

  lemma SettleKeepsRecord(c: Config, s: State, w: WorkerId, now: int, storeOk: bool, t: TaskId)
    ensures SameRecord(s.db, DoSettle(c, s, w, now, storeOk).db, t)
  {
  }

  lemma ActivateKeepsRecord(c: Config, s: State, w: WorkerId, now: int, storeOk: bool, t: TaskId)
    ensures SameRecord(s.db, DoActivate(c, s, w, now, storeOk).db, t)
  {
  }

  lemma AppendKeepsRecord(c: Config, s: State, u: TaskId, event: EventKind, t: TaskId)
    ensures SameRecord(s.db, DoAppend(c, s, u, event).db, t)
  {
    if !event.Evaluation? {
      EvaluationsAppend(s.db, u, event, c.retention, t);
    }
  }

  lemma CommitKeepsOthers(c: Config, s: State, u: TaskId, now: int, storeOk: bool, t: TaskId)
    requires u != t
    ensures SameRecord(s.db, DoCommit(c, s, u, now, storeOk).db, t)
  {
    if u in s.retirements && s.retirements[u].pc.Judged? {
      CommitHasShape(c, s, u, now, storeOk);
    }
  }

  // --- what a retirement promises ---

  /** The state a retirement ends a task in: its target, unless the target is DONE and the task's evaluator decides. */
  predicate Promised(target: TaskState, gated: bool, passed: bool, state: TaskState) {
    if target == Done && gated then state == (if passed then Done else Failed) else state == target
  }

  /** A judgement to write: the promised state, and the evaluation that goes with it. */
  ghost predicate Judgement(target: TaskState, gated: bool, passed: bool, pc: RetirePc)
    requires pc.Judged?
  {
    pc.verdict.Some? ==>
      && Promised(target, gated, passed, pc.verdict.value)
      && pc.event == if target == Done && gated then Some(Evaluation(passed)) else None
  }

  lemma JudgeDecides(s: State, t: TaskId, passed: bool)
    requires t in s.retirements && s.retirements[t].pc.Stopped?
    ensures var s' := DoJudge(s, t, passed);
      && t in s'.retirements && s'.retirements[t].pc.Judged?
      && s'.retirements[t].pc.task == s.retirements[t].pc.task
      && Judgement(s.retirements[t].target, s.retirements[t].pc.task.gated, passed, s'.retirements[t].pc)
      && (s'.retirements[t].pc.verdict.Some? <==> !s.retirements[t].pc.task.state.Terminal())
  {
  }

  /** The commit of a judgement records exactly its evaluation. */
  lemma CommitRecords(
      c: Config, s: State, t: TaskId, now: int, storeOk: bool, target: TaskState, gated: bool, passed: bool)
    requires Retires(s) && Reads(s) && t in s.db.tasks && t in s.retirements && s.retirements[t].pc.Judged?
    requires s.retirements[t].pc.verdict.Some? && Judgement(target, gated, passed, s.retirements[t].pc)
    requires target == Done && gated
    ensures var s' := DoCommit(c, s, t, now, storeOk);
      t in s'.retirements && s'.retirements[t].pc.Retired? ==> Evaluations(s'.db.log, t) == [passed]
  {
    assert RetireOk(s, t) && ReadOk(s, t);
    VerdictIsTerminal(s, t);
    CommitHasShape(c, s, t, now, storeOk);
  }
}
