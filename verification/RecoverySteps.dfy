/** Restart recovery as part of a run: each of its effects is a sequence of protocol steps. */
module RecoverySteps {
  import opened Basics
  import opened Lifecycle
  import opened Tables
  import opened Protocol
  import opened Invariant
  import opened Preservation
  import opened Theorems
  import opened Callers

  ghost predicate Leads(c: Config, s: State, s': State) {
    exists path :: Run(c, s, path) == s'
  }

  lemma LeadsStep(c: Config, s: State, s': State, a: Action)
    requires Leads(c, s, s')
    ensures Leads(c, s, Apply(c, s', a))
  {
    var path :| Run(c, s, path) == s';
    RunSnoc(c, s, path, a);
    assert Run(c, s, path + [a]) == Apply(c, s', a);
  }

  /** Nothing but recovery is under way, with this database and these handles. */
  ghost predicate Mirrors(s: State, db: Db, handles: map<TaskId, WorkerId>) {
    s.db == db && s.handles == handles && s.retirements == map[]
  }

  /** From a reached state `s` recovery has come, by steps of the protocol, to `s'`. */
  ghost predicate Follows(c: Config, s: State, s': State, db: Db, handles: map<TaskId, WorkerId>) {
    Leads(c, Init(), s) && Leads(c, s, s') && Mirrors(s', db, handles)
  }

  /** A restarted process begins in such a state, with no lease held; rows and external workers are as they were. */
  lemma RestartMirrors(c: Config, s: State)
    requires c.restarts && Leads(c, Init(), s)
    ensures var s' := Apply(c, s, Restart);
      Leads(c, Init(), s') && Mirrors(s', s.db, map[]) && s'.held == map[] && s'.live == s.live
  {
    LeadsStep(c, Init(), s, Restart);
  }

  lemma FollowsAtFirst(c: Config, s: State)
    requires Leads(c, Init(), s) && s.retirements == map[]
    ensures Follows(c, s, s, s.db, s.handles)
  {
    assert Run(c, s, []) == s;
  }

  /** All of recovery stays within the reached states, and keeps their invariant. */
  lemma RecoveryIsReached(c: Config, s: State, s': State)
    requires Leads(c, Init(), s) && Leads(c, s, s')
    ensures exists actions :: Reached(c, actions) == s'
    ensures Inv(c, s')
  {
    LeadsOn(c, Init(), s, s');
    var actions :| Run(c, Init(), actions) == s';
    ReachedInv(c, actions);
    assert Reached(c, actions) == s';
  }

  lemma LeadsOn(c: Config, s: State, s1: State, s2: State)
    requires Leads(c, s, s1) && Leads(c, s1, s2)
    ensures Leads(c, s, s2)
  {
    var a :| Run(c, s, a) == s1;
    var b :| Run(c, s1, b) == s2;
    RunConcat(c, s, a, b);
    assert Run(c, s, a + b) == s2;
  }

  /**
   * Registering a found pane under its active row is a step of the protocol.  The handle
   * names the task's one active worker, and stays a name that `retire` may be given.
   */
  lemma FoundPaneIsReattach(c: Config, s: State, actions: seq<Action>, t: TaskId, w: WorkerId)
    requires Inv(c, s) && IsLive(s.db, t) && w in ActiveOf(s.db, t)
    ensures var s' := Apply(c, s, Reattach(t, w));
      && s' == s.(handles := s.handles[t := w])
      && ActiveOf(s'.db, t) == {s'.handles[t]}
      && CanName(Run(c, s', actions), t, Some(w))
  {
    ActiveIsOwner(c, s, t);
    ReattachApplied(c, s, t, w);
    NameAfterReattach(c, s, actions, t, w);
  }

  lemma ReattachApplied(c: Config, s: State, t: TaskId, w: WorkerId)
    requires IsLive(s.db, t) && w in ActiveOf(s.db, t)
    ensures Apply(c, s, Reattach(t, w)) == s.(handles := s.handles[t := w])
  {
  }

  lemma NameAfterReattach(c: Config, s: State, actions: seq<Action>, t: TaskId, w: WorkerId)
    requires Inv(c, s) && w in ActiveOf(s.db, t)
    ensures CanName(Run(c, Apply(c, s, Reattach(t, w)), actions), t, Some(w))
  {
    KnownIdStaysCallable(c, s, [Reattach(t, w)] + actions, t, w);
    assert ([Reattach(t, w)] + actions)[1..] == actions;
  }

  lemma Reattached(c: Config, s: State, s1: State, t: TaskId, w: WorkerId) returns (s': State)
    requires Follows(c, s, s1, s1.db, s1.handles) && IsLive(s1.db, t) && w in ActiveOf(s1.db, t)
    ensures Follows(c, s, s', s1.db, s1.handles[t := w])
  {
    ReattachApplied(c, s1, t, w);
    LeadsStep(c, s, s1, Reattach(t, w));
    s' := Apply(c, s1, Reattach(t, w));
  }

  /** What marking a task LOST does to the database: the retirement's transaction, then the remark. */
  function LostAndNoted(db: Db, t: TaskId, worker: Option<WorkerId>, now: int): Db {
    AppendEvent(FinishWorker(db, t, worker, Lost, None, now).After(db), t, Remark(0), 1).After(
      FinishWorker(db, t, worker, Lost, None, now).After(db))
  }

  /**
   * Marking a live task of a reachable state LOST is one undisturbed retirement and one
   * append.  A live task always has its worker row there, so the call without one does
   * not occur.
   */
  lemma LostIsRetirement(c: Config, s: State, s1: State, t: TaskId, worker: Option<WorkerId>, now: int)
    returns (s': State)
    requires Follows(c, s, s1, s1.db, s1.handles) && IsLive(s1.db, t)
    requires worker.None? ==> ActiveOf(s1.db, t) == {}
    requires worker.Some? ==> worker.value in ActiveOf(s1.db, t)
    ensures worker.Some?
    ensures Follows(c, s, s', LostAndNoted(s1.db, t, worker, now), s1.handles - {t})
  {
    RecoveryIsReached(c, s, s1);
    HasWorker(c, s1, t, worker);
    var w := worker.value;
    UndisturbedRetirement(c, s1, t, w, now);
    var s2 :| Leads(c, s1, s2) && LosesTask(s1, s2, t, w, now);
    LeadsOn(c, s, s1, s2);
    LeadsStep(c, s, s2, Append(t, Remark(0)));
    s' := Apply(c, s2, Append(t, Remark(0)));
    NotedBy(c, s2, t);
  }

  lemma HasWorker(c: Config, s: State, t: TaskId, worker: Option<WorkerId>)
    requires Inv(c, s) && IsLive(s.db, t)
    requires worker.None? ==> ActiveOf(s.db, t) == {}
    requires worker.Some? ==> worker.value in ActiveOf(s.db, t)
    ensures worker.Some? && CanName(s, t, worker)
  {
    ActiveIsOwner(c, s, t);
    assert worker.Some?;
    assert RowOk(s, worker.value) && AttemptOk(c, s, worker.value);
  }

  lemma NotedBy(c: Config, s: State, t: TaskId)
    ensures Apply(c, s, Append(t, Remark(0))) == s.(db := AppendEvent(s.db, t, Remark(0), 1).After(s.db))
  {
  }

  /** The database after the task of `w` has been ended as LOST. */
  function LostDb(db: Db, t: TaskId, w: WorkerId, now: int): Db {
    FinishWorker(db, t, Some(w), Lost, None, now).After(db)
  }

  ghost predicate LosesTask(s: State, s': State, t: TaskId, w: WorkerId, now: int) {
    s' == s.(db := LostDb(s.db, t, w, now), handles := s.handles - {t}, held := s'.held)
  }

  lemma UndisturbedRetirement(c: Config, s: State, t: TaskId, w: WorkerId, now: int)
    requires CanName(s, t, Some(w)) && t !in s.retirements && IsLive(s.db, t) && w in s.db.workers
    ensures exists s' :: Leads(c, s, s') && LosesTask(s, s', t, w, now)
  {
    var begun := Begins(c, s, t, w);
    var read := ReadsRows(c, s, begun, t);
    var judged := JudgesLost(c, s, read, t);
    var committed := CommitsLost(c, s, judged, t, w, now);
    var left := Leaves(c, s, committed, t);
    assert left.retirements == s.retirements;
    assert LosesTask(s, left, t, w, now);
  }

  lemma Begins(c: Config, s: State, t: TaskId, w: WorkerId) returns (s': State)
    requires CanName(s, t, Some(w)) && t !in s.retirements
    ensures Leads(c, s, s') && t in s'.retirements && s'.retirements - {t} == s.retirements
    ensures s' == s.(retirements := s'.retirements)
    ensures var r := s'.retirements[t]; r.worker == Some(w) && r.target == Lost && !r.stop && r.pc.Begun?
  {
    assert Run(c, s, []) == s;
    LeadsStep(c, s, s, BeginRetire(t, Some(w), Lost, false));
    s' := DoBeginRetire(s, t, Some(w), Lost, false);
  }

  lemma ReadsRows(c: Config, s: State, s1: State, t: TaskId) returns (s': State)
    requires Leads(c, s, s1) && t in s1.retirements && s1.retirements[t].pc.Begun? && IsLive(s1.db, t)
    ensures Leads(c, s, s') && OnlyPc(s1, s', t) && s'.retirements[t].pc.TaskRead?
    ensures s'.retirements[t].pc.task.state.Live()
  {
    LeadsStep(c, s, s1, ReadWorker(t));
    s' := DoReadWorker(s1, t);
    assert s'.retirements[t].pc.WorkerRead?;
    s' := ReadsTask(c, s, s1, s', t);
  }

  /** Only the progress of the retirement of `t` differs. */
  ghost predicate OnlyPc(s: State, s': State, t: TaskId) {
    t in s.retirements && t in s'.retirements && s' == WithRetirePc(s, t, s'.retirements[t].pc)
  }

  lemma ReadsTask(c: Config, s: State, s1: State, s2: State, t: TaskId) returns (s': State)
    requires Leads(c, s, s2) && OnlyPc(s1, s2, t) && s2.retirements[t].pc.WorkerRead? && IsLive(s2.db, t)
    ensures Leads(c, s, s') && OnlyPc(s1, s', t) && s'.retirements[t].pc.TaskRead?
    ensures s'.retirements[t].pc.task.state.Live()
  {
    LeadsStep(c, s, s2, ReadTask(t));
    s' := DoReadTask(s2, t);
  }

  lemma JudgesLost(c: Config, s: State, s1: State, t: TaskId) returns (s': State)
    requires Leads(c, s, s1) && t in s1.retirements && s1.retirements[t].pc.TaskRead?
    requires var r := s1.retirements[t]; r.target == Lost && !r.stop && r.pc.task.state.Live()
    ensures Leads(c, s, s') && OnlyPc(s1, s', t)
    ensures var pc := s'.retirements[t].pc; pc.Judged? && pc.verdict == Some(Lost) && pc.event == None
  {
    LeadsStep(c, s, s1, StopRetiree(t, true));
    s' := DoStopRetiree(s1, t, true);
    assert s'.live == s1.live;
    LeadsStep(c, s, s', Judge(t, false));
    s' := DoJudge(s', t, false);
  }

  lemma CommitsLost(c: Config, s: State, s1: State, t: TaskId, w: WorkerId, now: int) returns (s': State)
    requires Leads(c, s, s1) && IsLive(s1.db, t) && t in s1.retirements && s1.retirements[t].worker == Some(w)
    requires var pc := s1.retirements[t].pc; pc.Judged? && pc.verdict == Some(Lost) && pc.event == None
    ensures Leads(c, s, s') && s'.db == LostDb(s1.db, t, w, now)
    ensures OnlyPc(s1.(db := s'.db), s', t) && s'.retirements[t].pc.Retired?
  {
    LeadsStep(c, s, s1, Commit(t, now, true));
    s' := DoCommit(c, s1, t, now, true);
  }

  lemma Leaves(c: Config, s: State, s1: State, t: TaskId) returns (s': State)
    requires Leads(c, s, s1) && t in s1.retirements && s1.retirements[t].pc.Retired?
    ensures Leads(c, s, s')
    ensures s' == s1.(handles := s1.handles - {t}, held := s'.held, retirements := s1.retirements - {t})
  {
    LeadsStep(c, s, s1, ReleaseRetiree(t));
    var s2 := DoReleaseRetiree(s1, t);
    assert s2 == WithRetirePc(s1, t, Dropping).(held := s2.held);
    s' := DropsAndExits(c, s, s2, t);
    assert s2.retirements - {t} == s1.retirements - {t};
  }

  lemma DropsAndExits(c: Config, s: State, s1: State, t: TaskId) returns (s': State)
    requires Leads(c, s, s1) && t in s1.retirements && s1.retirements[t].pc.Dropping?
    ensures Leads(c, s, s') && s' == s1.(handles := s1.handles - {t}, retirements := s1.retirements - {t})
  {
    LeadsStep(c, s, s1, DropHandle(t));
    s' := DoDropHandle(s1, t);
    LeadsStep(c, s, s', ExitRetire(t));
    s' := DoExitRetire(s', t);
    assert s'.retirements == s1.retirements - {t};
  }
}
