/** The step-by-step results of `Theorems`, read off two consecutive states of any run. */
module Runs {
  import opened Basics
  import opened Lifecycle
  import opened Tables
  import opened Queueing
  import opened Protocol
  import opened Invariant
  import opened Theorems

  lemma Next(c: Config, actions: seq<Action>, a: Action)
    ensures Inv(c, Reached(c, actions))
    ensures Reached(c, actions + [a]) == Apply(c, Reached(c, actions), a)
  {
    ReachedInv(c, actions);
    RunSnoc(c, Init(), actions, a);
  }

  /**
   * Nothing but a claim raises the number of un-ended workers and reserved tasks, and a claim stays
   * within the limit.
   */
  lemma LoadRisesOnlyByClaim(c: Config, actions: seq<Action>, a: Action)
    ensures var before, after := Load(Reached(c, actions).db), Load(Reached(c, actions + [a]).db);
      && (after > before ==> a.Claim? && after <= c.maxActive)
      && (a.Activate? ==> after == before)
  {
    Next(c, actions, a);
    LoadStep(c, Reached(c, actions), a);
  }

  /**
   * A GPU is given back only by the attempt it is held for, before that has a row, or by the
   * retirement of the worker it is held for, after its row has ended.
   */
  lemma LeaseGivenBackInTurn(c: Config, actions: seq<Action>, a: Action, u: Uuid)
    requires !c.restarts
    requires u in Reached(c, actions).held && u !in Reached(c, actions + [a]).held
    ensures var s := Reached(c, actions); var w := s.held[u];
      && w !in ActiveWorkers(s.db)
      && ((a == ReleaseLease(w) && w !in s.db.workers)
          || (a.ReleaseRetiree? && a.t in s.retirements && s.retirements[a.t].worker == Some(w)))
  {
    Next(c, actions, a);
    LeaseGivenBackByHolder(c, Reached(c, actions), a, u);
  }

  /** Every change of a task's state is one of the listed moves of one of the listed steps. */
  lemma StateChangesAreMoves(c: Config, actions: seq<Action>, a: Action, t: TaskId)
    requires t in Reached(c, actions).db.tasks && t in Reached(c, actions + [a]).db.tasks
    ensures var s, s' := Reached(c, actions), Reached(c, actions + [a]);
      s'.db.tasks[t].state == s.db.tasks[t].state || Moves(s, a, t, s.db.tasks[t].state, s'.db.tasks[t].state)
  {
    Next(c, actions, a);
    StateMoves(c, Reached(c, actions), a, t);
  }

  /** This commit carries a FAILED or CANCELLED verdict. */
  predicate CommitsFailure(c: Config, s: State, a: Action, t: TaskId) {
    && a.Commit? && a.t == t && (a.storeOk || !c.faults)
    && t in s.retirements && s.retirements[t].pc.Judged?
    && (s.retirements[t].pc.verdict == Some(Failed) || s.retirements[t].pc.verdict == Some(Cancelled))
  }

  /** A terminal state changes exactly when it is LOST and a retirement that judged an older read commits a failure. */
  lemma TerminalChangesExactlyWhen(c: Config, actions: seq<Action>, a: Action, t: TaskId)
    requires t in Reached(c, actions).db.tasks && t in Reached(c, actions + [a]).db.tasks
    requires Reached(c, actions).db.tasks[t].state.Terminal()
    ensures var s, s' := Reached(c, actions), Reached(c, actions + [a]);
      && (s'.db.tasks[t].state != s.db.tasks[t].state <==>
            s.db.tasks[t].state == Lost && CommitsFailure(c, s, a, t))
      && (s'.db.tasks[t].state != s.db.tasks[t].state ==>
            (s'.db.tasks[t].state == Failed || s'.db.tasks[t].state == Cancelled)
            && s.retirements[t].pc.task.state in {Planned, Queued, Dispatching})
  {
    Next(c, actions, a);
    TerminalLeftOnlyFromLost(c, Reached(c, actions), a, t);
  }

  /** A task that is terminal or deleted at some moment is so at every later one. */
  lemma {:induction false} OverStaysOver(c: Config, actions: seq<Action>, more: seq<Action>, t: TaskId)
    requires t in Reached(c, actions).used && Gone(Reached(c, actions), t)
    ensures t in Reached(c, actions + more).used && Gone(Reached(c, actions + more), t)
    decreases |more|
  {
    if more == [] {
      assert actions + more == actions;
    } else {
      Next(c, actions, more[0]);
      GoneForever(c, Reached(c, actions), more[0], t);
      OverStaysOver(c, actions + [more[0]], more[1..], t);
      assert (actions + [more[0]]) + more[1..] == actions + more;
    }
  }

  /**
   * Whatever it read, a retirement that comes to commit on a live task lands, and closes
   * the task's one open row exactly if that is the row it names.
   */
  lemma CommitOnLiveTask(c: Config, actions: seq<Action>, t: TaskId, now: int)
    requires var s := Reached(c, actions);
      t in s.retirements && s.retirements[t].pc.Judged? && IsLive(s.db, t)
    ensures var s, s' := Reached(c, actions), Reached(c, actions + [Commit(t, now, true)]);
      && s.retirements[t].pc.verdict.Some? && StateIs(s'.db, t, s.retirements[t].pc.verdict.value)
      && t in s.owner && ActiveOf(s.db, t) == {s.owner[t]}
      && (ActiveOf(s'.db, t) == {} <==> s.retirements[t].worker == Some(s.owner[t]))
  {
    Next(c, actions, Commit(t, now, true));
    CommitApplied(c, Reached(c, actions), t, now);
    CommitOnLive(c, Reached(c, actions), t, now);
  }

  /** A retirement that read its task live finds it live, or deleted, when it commits; so its commit lands. */
  lemma LiveRetirementLands(c: Config, actions: seq<Action>, t: TaskId, now: int)
    requires var r := Reached(c, actions).retirements;
      t in r && r[t].pc.Judged? && r[t].pc.task.state.Live()
    ensures var s, s' := Reached(c, actions), Reached(c, actions + [Commit(t, now, true)]);
      t in s.db.tasks ==>
        && IsLive(s.db, t)
        && s.retirements[t].pc.verdict.Some? && StateIs(s'.db, t, s.retirements[t].pc.verdict.value)
        && t in s.owner && (ActiveOf(s'.db, t) == {} <==> s.retirements[t].worker == Some(s.owner[t]))
  {
    ReachedInv(c, actions);
    LiveReadStaysLive(c, Reached(c, actions), t);
    if t in Reached(c, actions).db.tasks {
      CommitOnLiveTask(c, actions, t, now);
    }
  }

  /** A worker row is open although its task is not live. */
  ghost predicate Stranded(db: Db, t: TaskId) {
    t in db.tasks && !IsLive(db, t) && ActiveOf(db, t) != {}
  }

  /** A commit that lands on a live task and names a worker other than the active one. */
  ghost predicate CommitsPastWorker(c: Config, s: State, a: Action, t: TaskId) {
    && a.Commit? && a.t == t && (a.storeOk || !c.faults)
    && t in s.retirements && s.retirements[t].pc.Judged? && IsLive(s.db, t)
    && (s.retirements[t].worker.None? || s.retirements[t].worker.value !in ActiveOf(s.db, t))
  }

  /** A worker row gets stranded in exactly one way: such a commit.  Every other step of every party excludes it. */
  lemma StrandedExactlyWhen(c: Config, actions: seq<Action>, a: Action, t: TaskId)
    requires !Stranded(Reached(c, actions).db, t)
    ensures Stranded(Reached(c, actions + [a]).db, t) <==> CommitsPastWorker(c, Reached(c, actions), a, t)
  {
    Next(c, actions, a);
    StrandedStep(c, Reached(c, actions), a, t);
  }

  lemma StrandedStep(c: Config, s: State, a: Action, t: TaskId)
    requires Inv(c, s) && !Stranded(s.db, t)
    ensures Stranded(Apply(c, s, a).db, t) <==> CommitsPastWorker(c, s, a, t)
  {
    if JudgedCommit(s, a, t) && IsLive(s.db, t) {
      CommitStrands(c, s, a, t);
    } else if IsLive(s.db, t) {
      LiveStaysLive(c, s, a, t);
    } else {
      RowsOpenByActivation(c, s, a, t);
      if t !in s.db.tasks { NoRowWithoutTask(s, t); }
    }
  }

  predicate JudgedCommit(s: State, a: Action, t: TaskId) {
    a.Commit? && a.t == t && t in s.retirements && s.retirements[t].pc.Judged?
  }

  /** Only a judged commit ends a live task. */
  lemma LiveStaysLive(c: Config, s: State, a: Action, t: TaskId)
    requires IsLive(s.db, t) && !JudgedCommit(s, a, t)
    ensures t in Apply(c, s, a).db.tasks ==> IsLive(Apply(c, s, a).db, t)
  {
    if t in Apply(c, s, a).db.tasks {
      StateMoves(c, s, a, t);
    }
  }

  lemma NoRowWithoutTask(s: State, t: TaskId)
    requires Rows(s) && t !in s.db.tasks
    ensures ActiveOf(s.db, t) == {}
  {
    forall w | w in s.db.workers ensures s.db.workers[w].task != t {
      assert RowOk(s, w);
    }
  }

  lemma CommitStrands(c: Config, s: State, a: Action, t: TaskId)
    requires Inv(c, s) && a.Commit? && a.t == t
    requires t in s.retirements && s.retirements[t].pc.Judged? && IsLive(s.db, t)
    ensures Stranded(Apply(c, s, a).db, t) <==> CommitsPastWorker(c, s, a, t)
  {
    if a.storeOk || !c.faults {
      LandedCommitStrands(c, s, t, a.now);
      LandsAsOk(c, s, t, a.now, a.storeOk);
    } else {
      RefusedCommit(c, s, t, a.now);
    }
  }

  lemma LandedCommitStrands(c: Config, s: State, t: TaskId, now: int)
    requires Inv(c, s) && t in s.retirements && s.retirements[t].pc.Judged? && IsLive(s.db, t)
    ensures Stranded(DoCommit(c, s, t, now, true).db, t) <==>
      s.retirements[t].worker.None? || s.retirements[t].worker.value !in ActiveOf(s.db, t)
  {
    CommitOnLive(c, s, t, now);
    VerdictEnds(s, t);
  }

  lemma LandsAsOk(c: Config, s: State, t: TaskId, now: int, storeOk: bool)
    requires storeOk || !c.faults
    ensures Apply(c, s, Commit(t, now, storeOk)) == DoCommit(c, s, t, now, true)
  {
  }

  lemma RefusedCommit(c: Config, s: State, t: TaskId, now: int)
    requires c.faults
    ensures Apply(c, s, Commit(t, now, false)).db == s.db
  {
  }

  lemma VerdictEnds(s: State, t: TaskId)
    requires Retires(s) && Reads(s) && t in s.retirements && s.retirements[t].pc.Judged?
    ensures s.retirements[t].pc.verdict.Some? ==>
      s.retirements[t].pc.verdict.value.Terminal() && !s.retirements[t].pc.verdict.value.Live()
  {
    assert RetireOk(s, t) && ReadOk(s, t);
    VerdictIsTerminal(s, t);
  }

  /** The repair: a retirement that read its task terminal, with its row still open, ends that row and nothing else. */
  lemma RepairEndsRow(c: Config, actions: seq<Action>, t: TaskId, now: int)
    requires var r := Reached(c, actions).retirements;
      t in r && r[t].pc.Judged? && r[t].pc.task.state.Terminal()
    ensures var s, s' := Reached(c, actions), Reached(c, actions + [Commit(t, now, true)]);
      && s'.db.tasks == s.db.tasks && s'.db.log == s.db.log && s'.db.workers.Keys == s.db.workers.Keys
      && s.retirements[t].worker.Some?
      && ActiveWorkers(s'.db) == ActiveWorkers(s.db) - {s.retirements[t].worker.value}
  {
    Next(c, actions, Commit(t, now, true));
    CommitApplied(c, Reached(c, actions), t, now);
    RepairCommits(c, Reached(c, actions), t, now);
    EndedRow(Reached(c, actions).db, Reached(c, actions).retirements[t].worker.value, now);
  }

  lemma EndedRow(db: Db, w: WorkerId, now: int)
    ensures var db' := EndWorker(db, w, now);
      && db'.tasks == db.tasks && db'.log == db.log && db'.workers.Keys == db.workers.Keys
      && ActiveWorkers(db') == ActiveWorkers(db) - {w}
  {
  }

  lemma RepairCommits(c: Config, s: State, t: TaskId, now: int)
    requires Reads(s) && t in s.retirements && RowInHandOk(s, t)
    requires s.retirements[t].pc.Judged? && s.retirements[t].pc.task.state.Terminal()
    ensures s.retirements[t].worker.Some?
    ensures DoCommit(c, s, t, now, true).db == EndWorker(s.db, s.retirements[t].worker.value, now)
  {
    assert ReadOk(s, t);
    var pc := s.retirements[t].pc;
    var passed :| (pc.verdict, pc.event) == Verdict(pc.task, s.retirements[t].target, passed);
    assert pc.row.Some?;
  }

  /** Steering moves a task to the state it names from the states it expects, and leaves it alone in every other. */
  lemma SteeringDoes(c: Config, s: State, t: TaskId, kind: Steering, now: int)
    requires t in s.db.tasks
    ensures var s' := Apply(c, s, Steer(t, kind, now)); var was := s.db.tasks[t].state;
      && t in s'.db.tasks && s'.db.tasks[t].state ==
           (if kind.Pause? && was.Running? then Paused
            else if (kind.Resume? && was.Paused?) || (kind.Nudge? && was.Stuck?) then Running
            else if kind.MarkStuck? && was.Running? then Stuck
            else was)
  {
    Steered(s.db, t, kind.Target(), kind.Expected(), now);
  }

  lemma Steered(db: Db, t: TaskId, target: TaskState, expected: set<TaskState>, now: int)
    requires t in db.tasks
    ensures var db' := SetTaskState(db, t, target, Some(expected), now).After(db);
      && t in db'.tasks
      && db'.tasks[t].state ==
           if db.tasks[t].state in expected && Legal(db.tasks[t].state, target) then target else db.tasks[t].state
  {
  }

  lemma CommitApplied(c: Config, s: State, t: TaskId, now: int)
    ensures Apply(c, s, Commit(t, now, true)) == DoCommit(c, s, t, now, true)
  {
  }

  /** While no store write fails, a retirement of a live task holds the id of its one active worker. */
  lemma RetirementHoldsActiveWorker(c: Config, actions: seq<Action>, t: TaskId)
    requires !c.faults && t in Reached(c, actions).retirements && IsLive(Reached(c, actions).db, t)
    ensures var s := Reached(c, actions);
      s.retirements[t].worker.Some? && ActiveOf(s.db, t) == {s.retirements[t].worker.value}
  {
    ReachedInv(c, actions);
    RetirementNamesActiveWorker(c, Reached(c, actions), t);
    ActiveIsOwner(c, Reached(c, actions), t);
  }

  /** A task becomes DONE only by a commit that brings its one evaluation along, if it has an evaluator. */
  lemma DoneEntersWithEvaluation(c: Config, actions: seq<Action>, a: Action, t: TaskId)
    requires t in Reached(c, actions).db.tasks && !StateIs(Reached(c, actions).db, t, Done)
    requires StateIs(Reached(c, actions + [a]).db, t, Done)
    ensures var s, s' := Reached(c, actions), Reached(c, actions + [a]);
      && a.Commit? && a.t == t && Evaluations(s.db.log, t) == []
      && Evaluations(s'.db.log, t) == if s.db.tasks[t].gated then [true] else []
  {
    Next(c, actions, a);
    EvaluationCommitsWithState(c, Reached(c, actions), a, t);
  }
}
