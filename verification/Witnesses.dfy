/**
 * Concrete runs showing that two limits stated in `Theorems` are real: LOST can be
 * left, and a store fault can leave a worker row open on a task that is over.
 */
module Witnesses {
  import opened Basics
  import opened Lifecycle
  import opened Tables
  import opened Queueing
  import opened Protocol
  import opened Theorems

  ghost predicate CanReach(c: Config, s: State) {
    exists actions :: Reached(c, actions) == s
  }

  lemma CanStart(c: Config)
    ensures CanReach(c, Init())
  {
    assert Reached(c, []) == Init();
  }

  lemma CanStep(c: Config, s: State, a: Action)
    requires CanReach(c, s)
    ensures CanReach(c, Apply(c, s, a))
  {
    var actions :| Reached(c, actions) == s;
    RunSnoc(c, Init(), actions, a);
    assert Reached(c, actions + [a]) == Apply(c, s, a);
  }

  /** With one queued task and room for it, a claim takes exactly that task. */
  lemma ClaimsTheOnlyTask(db: Db, t: TaskId)
    requires QueuedTasks(db) == {t} && Capacity(db, 1) == 1
    ensures Elements(Claimable(db, 1)) == {t}
  {
    ClaimableRows(db, 1);
    assert Ahead(db, t) == {};
    ClaimedIffInReach(db, 1, t);
  }

  const JOB: TaskId := 0

  /** Nothing is running; the job waits in the queue. */
  ghost predicate Waiting(s: State) {
    && StateIs(s.db, JOB, Queued) && s.db.tasks.Keys == {JOB} && s.db.workers == map[]
    && s.retirements.Keys <= {JOB}
  }

  lemma NobodyActive(s: State)
    requires Waiting(s)
    ensures QueuedTasks(s.db) == {JOB} && Capacity(s.db, 1) == 1
  {
    assert ActiveWorkers(s.db) == {} && DispatchingTasks(s.db) == {};
  }

  lemma Submit(c: Config) returns (s: State)
    ensures CanReach(c, s) && Waiting(s) && s.attempts == map[] && s.started == map[] && s.retirements == map[]
        && s.held == map[]
    ensures s.db.tasks == map[JOB := TaskRow(Queued, 0, false, None)]
  {
    var row := TaskRow(Queued, 0, false, None);
    CanStart(c);
    CanStep(c, Init(), CreateTask(JOB, row));
    s := Apply(c, Init(), CreateTask(JOB, row));
  }

  /** The waiting job is claimed by one new attempt. */
  lemma Take(c: Config, s: State, k: TickId, w: WorkerId, now: int) returns (s': State)
    requires CanReach(c, s) && Waiting(s) && c.maxActive == 1
    requires k !in s.started && w !in s.attempts
    ensures CanReach(c, s') && s'.retirements == s.retirements && s'.held == s.held
    ensures s'.attempts == s.attempts[w := Attempt(JOB, s.db.tasks[JOB].need, k, false, Claimed)]
    ensures s'.started == s.started[k := 0]
    ensures s'.db == s.db.(tasks := s.db.tasks[JOB := s.db.tasks[JOB].(state := Dispatching, updated := now)])
  {
    NobodyActive(s);
    ClaimsTheOnlyTask(s.db, JOB);
    var ids := map[JOB := w];
    CanStep(c, s, Claim(k, ids, now));
    s' := Apply(c, s, Claim(k, ids, now));
    ClaimOne(c, s, k, w, now);
  }

  lemma ClaimOne(c: Config, s: State, k: TickId, w: WorkerId, now: int)
    requires Waiting(s) && c.maxActive == 1 && k !in s.started && w !in s.attempts
    requires Elements(Claimable(s.db, 1)) == {JOB}
    ensures var s' := DoClaim(c, s, k, map[JOB := w], now);
      && s' == s.(db := s'.db, attempts := s'.attempts, owner := s'.owner, started := s.started[k := 0])
      && s'.attempts == s.attempts[w := Attempt(JOB, s.db.tasks[JOB].need, k, false, Claimed)]
      && s'.db == s.db.(tasks := s.db.tasks[JOB := s.db.tasks[JOB].(state := Dispatching, updated := now)])
  {
    var ids := map[JOB := w];
    assert FreshIds(s, {JOB}, ids);
    AddOne(s.db.tasks, k, w);
    ReserveOne(s.db, now);
  }

  lemma AddOne(tasks: map<TaskId, TaskRow>, k: TickId, w: WorkerId)
    requires JOB in tasks
    ensures NewAttempts(tasks, k, {JOB}, map[JOB := w]) == map[w := Attempt(JOB, tasks[JOB].need, k, false, Claimed)]
  {
  }

  lemma ReserveOne(db: Db, now: int)
    requires JOB in db.tasks
    ensures Reserve(db, {JOB}, now).tasks == db.tasks[JOB := db.tasks[JOB].(state := Dispatching, updated := now)]
  {
  }

  /** Prepare, start and register a claimed attempt that needs no resource. */
  lemma Launch(c: Config, s: State, w: WorkerId) returns (s': State)
    requires CanReach(c, s) && w in s.attempts && s.attempts[w].pc == Claimed && s.attempts[w].need == None
    ensures CanReach(c, s') && s' == s.(attempts := s'.attempts, live := s'.live, handles := s'.handles)
    ensures s'.attempts == s.attempts[w := s.attempts[w].(known := true, pc := Registered(None))]
  {
    CanStep(c, s, PrepareOk(w));
    var s1 := Apply(c, s, PrepareOk(w));
    assert s1 == WithPc(s, w, Leased(None));
    CanStep(c, s1, StartOk(w));
    var s2 := Apply(c, s1, StartOk(w));
    assert s2 == WithPc(s1, w, Started(None)).(live := s1.live + {w});
    CanStep(c, s2, Register(w));
    s' := Apply(c, s2, Register(w));
  }

  /** Enter `retire` for the job and read both rows while it is still being dispatched. */
  lemma BeginReading(c: Config, s: State, w: WorkerId) returns (s': State)
    requires CanReach(c, s) && StateIs(s.db, JOB, Dispatching) && s.db.workers == map[] && s.retirements == map[]
    requires w in s.attempts && s.attempts[w].task == JOB && s.attempts[w].known
    ensures CanReach(c, s') && s' == s.(retirements := s'.retirements) && s'.retirements.Keys == {JOB}
    ensures s'.retirements[JOB].worker == Some(w) && s'.retirements[JOB].target == Failed && s'.retirements[JOB].stop
    ensures s'.retirements[JOB].pc == TaskRead(None, s.db.tasks[JOB])
  {
    s' := Enter(c, s, w);
    CanStep(c, s', ReadWorker(JOB));
    s' := Apply(c, s', ReadWorker(JOB));
    s' := Look(c, s');
  }

  lemma Enter(c: Config, s: State, w: WorkerId) returns (s': State)
    requires CanReach(c, s) && s.retirements == map[]
    requires w in s.attempts && s.attempts[w].task == JOB && s.attempts[w].known
    ensures CanReach(c, s') && s' == s.(retirements := s'.retirements) && s'.retirements.Keys == {JOB}
    ensures var r := s'.retirements[JOB]; r.worker == Some(w) && r.target == Failed && r.stop && r.pc == Begun
  {
    CanStep(c, s, BeginRetire(JOB, Some(w), Failed, true));
    s' := Apply(c, s, BeginRetire(JOB, Some(w), Failed, true));
  }

  lemma Look(c: Config, s: State) returns (s': State)
    requires CanReach(c, s) && StateIs(s.db, JOB, Dispatching)
    requires JOB in s.retirements && s.retirements[JOB].pc == WorkerRead(None)
    ensures CanReach(c, s') && s' == WithRetirePc(s, JOB, TaskRead(None, s.db.tasks[JOB]))
  {
    CanStep(c, s, ReadTask(JOB));
    s' := Apply(c, s, ReadTask(JOB));
  }

  /** Carry the retirement on, past a stop that fails, to the point where only the commit is missing. */
  lemma Decide(c: Config, s: State, seen: TaskRow) returns (s': State)
    requires CanReach(c, s) && JOB in s.retirements && s.retirements[JOB].pc == TaskRead(None, seen)
    requires !seen.state.Terminal() && s.retirements[JOB].target == Failed && s.retirements[JOB].stop
    ensures CanReach(c, s') && s' == s.(retirements := s'.retirements)
    ensures JOB in s'.retirements && s'.retirements[JOB].worker == s.retirements[JOB].worker
    ensures s'.retirements[JOB].pc == Judged(None, seen, Some(Failed), None)
  {
    CanStep(c, s, StopRetiree(JOB, false));
    var s1 := Apply(c, s, StopRetiree(JOB, false));
    assert s1.live == s.live;
    CanStep(c, s1, Judge(JOB, false));
    s' := Apply(c, s1, Judge(JOB, false));
  }

  /** A job submitted, claimed, started and registered, with a retirement reading it before activation. */
  lemma ReadBeforeActivation(c: Config, w: WorkerId) returns (s: State)
    requires c.maxActive == 1
    ensures CanReach(c, s) && s.db.tasks.Keys == {JOB} && s.db.workers == map[]
    ensures s.db.tasks[JOB] == TaskRow(Dispatching, 1, false, None)
    ensures s.attempts == map[w := Attempt(JOB, None, 0, true, Registered(None))] && s.started.Keys == {0}
    ensures JOB in s.retirements && s.retirements.Keys == {JOB}
    ensures s.retirements[JOB].worker == Some(w) && s.retirements[JOB].target == Failed && s.retirements[JOB].stop
    ensures s.retirements[JOB].pc == TaskRead(None, s.db.tasks[JOB])
  {
    s := Submit(c);
    s := Take(c, s, 0, w, 1);
    s := Launch(c, s, w);
    var s' := BeginReading(c, s, w);
    s := s';
  }

  /**
   * LOST is not final: a retirement that read the task while it was being dispatched
   * commits FAILED after the stale-claim sweep has already marked the task LOST.
   */
  lemma LostCanBeLeft(c: Config)
    requires c.maxActive == 1
    ensures exists s, a :: CanReach(c, s) && StateIs(s.db, JOB, Lost) && StateIs(Apply(c, s, a).db, JOB, Failed)
  {
    var s := ReadBeforeActivation(c, 7);
    var s1 := Expires(c, s);
    var s2 := Decide(c, s1, s.db.tasks[JOB]);
    FailsFromLost(c, s2);
  }

  lemma Expires(c: Config, s: State) returns (s': State)
    requires CanReach(c, s) && StateIs(s.db, JOB, Dispatching) && s.db.tasks[JOB].updated == 1
    ensures CanReach(c, s') && s' == s.(db := s'.db) && StateIs(s'.db, JOB, Lost)
  {
    CanStep(c, s, Sweep(2, 3));
    s' := Apply(c, s, Sweep(2, 3));
    assert JOB in StaleClaims(s.db, 2);
  }

  lemma FailsFromLost(c: Config, s: State)
    requires StateIs(s.db, JOB, Lost) && JOB in s.retirements
    requires s.retirements[JOB].pc.Judged? && s.retirements[JOB].pc.verdict == Some(Failed)
    ensures StateIs(Apply(c, s, Commit(JOB, 4, true)).db, JOB, Failed)
  {
    CommitMovesTo(c, s, JOB, 4, true);
  }

  /** Activation rolls back; the attempt stops its worker and gives the task back to the queue. */
  lemma RollBack(c: Config, s: State, w: WorkerId) returns (s': State)
    requires CanReach(c, s) && c.faults && StateIs(s.db, JOB, Dispatching) && s.db.workers == map[]
    requires w in s.attempts && s.attempts[w].task == JOB && s.attempts[w].pc == Registered(None)
    ensures CanReach(c, s') && s'.retirements == s.retirements && s'.started == s.started
    ensures s'.attempts == s.attempts[w := s.attempts[w].(pc := Finished(Compensated))]
    ensures s'.db == WithState(s.db, JOB, Queued, 3)
  {
    s' := Stops(c, s, w);
    s' := CleansUp(c, s', w);
    CanStep(c, s', Settle(w, 3, true));
    s' := Apply(c, s', Settle(w, 3, true));
  }

  lemma Stops(c: Config, s: State, w: WorkerId) returns (s': State)
    requires CanReach(c, s) && c.faults && w in s.attempts && s.attempts[w].pc == Registered(None)
    ensures CanReach(c, s') && s' == WithPc(s, w, Cleaning(None, true, false, true)).(live := s'.live)
  {
    CanStep(c, s, Activate(w, 2, false));
    s' := Apply(c, s, Activate(w, 2, false));
    assert s' == WithPc(s, w, Failing(None, true, true));
    CanStep(c, s', StopStarted(w, true));
    s' := Apply(c, s', StopStarted(w, true));
  }

  lemma CleansUp(c: Config, s: State, w: WorkerId) returns (s': State)
    requires CanReach(c, s) && w in s.attempts && s.attempts[w].pc == Cleaning(None, true, false, true)
    ensures CanReach(c, s') && s' == WithPc(s, w, Settling(false, true)).(handles := s'.handles)
  {
    CanStep(c, s, Unregister(w));
    s' := Apply(c, s, Unregister(w));
    assert s'.attempts[w].pc == Cleaning(None, false, false, true);
    CanStep(c, s', ReleaseLease(w));
    s' := Apply(c, s', ReleaseLease(w));
  }

  lemma Succeed(c: Config, s: State, w: WorkerId) returns (s': State)
    requires CanReach(c, s) && StateIs(s.db, JOB, Dispatching) && w !in s.db.workers
    requires w in s.attempts && s.attempts[w].task == JOB && s.attempts[w].pc == Registered(None)
    ensures CanReach(c, s') && s'.retirements == s.retirements
    ensures StateIs(s'.db, JOB, Running) && s'.db.workers == s.db.workers[w := WorkerRow(JOB, None, 5, None)]
  {
    CanStep(c, s, Activate(w, 5, true));
    s' := Apply(c, s, Activate(w, 5, true));
  }

  /**
   * With store faults a retirement can outlive the attempt it names: the attempt rolls
   * back, the task is dispatched again as worker 8, and the old call's commit ends the
   * task but not worker 8's row.
   */
  lemma FaultLeavesRowOpen(c: Config)
    requires c.maxActive == 1 && c.faults
    ensures exists s :: CanReach(c, s) && StateIs(s.db, JOB, Failed) && 8 in ActiveOf(s.db, JOB)
  {
    var s := ReadBeforeActivation(c, 7);
    var seen := s.db.tasks[JOB];
    s := RollBack(c, s, 7);
    s := Take(c, s, 1, 8, 4);
    s := Launch(c, s, 8);
    s := Succeed(c, s, 8);
    s := Decide(c, s, seen);
    CanStep(c, s, Commit(JOB, 6, true));
    EndsWrongRow(c, s);
  }

  lemma EndsWrongRow(c: Config, s: State)
    requires StateIs(s.db, JOB, Running) && s.db.workers == map[8 := WorkerRow(JOB, None, 5, None)]
    requires JOB in s.retirements && s.retirements[JOB].worker == Some(7) && s.retirements[JOB].pc.Judged?
    requires s.retirements[JOB].pc.verdict == Some(Failed)
    ensures var s' := Apply(c, s, Commit(JOB, 6, true)); StateIs(s'.db, JOB, Failed) && 8 in ActiveOf(s'.db, JOB)
  {
    CommitMovesTo(c, s, JOB, 6, true);
  }
}
