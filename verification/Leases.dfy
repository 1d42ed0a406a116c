/**
 * Which lease is whose: an attempt only ever has the lease its task asks for, and passes
 * it on to its worker row.  So a GPU that a task needs is held exactly for its worker.
 */
module Leases {
  import opened Basics
  import opened Lifecycle
  import opened Tables
  import opened Queueing
  import opened Protocol
  import opened Invariant
  import opened Preservation
  import opened Theorems

  /** The lease an attempt has in hand, if it is at a point where it has one. */
  predicate HasLease(pc: Pc) {
    pc.Leased? || pc.Started? || pc.Registered? || pc.Failing? || pc.Cleaning?
  }

  /** An attempt asks for what its task needs, and has in hand what it asked for. */
  ghost predicate AsksForNeed(s: State, w: WorkerId)
    requires w in s.attempts
  {
    var a := s.attempts[w];
    && (a.task in s.db.tasks ==> s.db.tasks[a.task].need == a.need)
    && (HasLease(a.pc) ==> a.pc.lease == a.need)
  }

  ghost predicate Asking(s: State) {
    forall w :: w in s.attempts ==> AsksForNeed(s, w)
  }

  /** A UUID is held for an attempt that asked for it. */
  ghost predicate HeldAsAsked(s: State) {
    forall u :: u in s.held ==> s.held[u] in s.attempts && s.attempts[s.held[u]].need == Some(GpuLease(u))
  }

  /** A worker row carries the lease its attempt asked for. */
  ghost predicate RowsAsAsked(s: State) {
    forall w :: w in s.db.workers ==> w in s.attempts && s.db.workers[w].lease == s.attempts[w].need
  }

  /** What a retirement has read agrees with what its worker asked for. */
  ghost predicate ReadAsAsked(s: State, t: TaskId)
    requires t in s.retirements
  {
    var r := s.retirements[t];
    r.worker.Some? && r.worker.value in s.attempts ==>
      && (r.pc.Row().Some? ==> r.pc.Row().value.lease == s.attempts[r.worker.value].need)
      && (r.pc.Uncommitted() || r.pc.Retired? ==> r.pc.task.need == s.attempts[r.worker.value].need)
  }

  ghost predicate ReadsAsAsked(s: State) {
    forall t :: t in s.retirements ==> ReadAsAsked(s, t)
  }

  ghost predicate Agreed(s: State) {
    Asking(s) && HeldAsAsked(s) && RowsAsAsked(s) && ReadsAsAsked(s)
  }

  // --- the main results ---

  lemma {:induction false} RunAgrees(c: Config, s: State, actions: seq<Action>)
    requires Inv(c, s) && Agreed(s)
    ensures Agreed(Run(c, s, actions))
    decreases |actions|
  {
    if actions == [] {
    } else {
      StepKeepsInv(c, s, actions[0]);
      StepAgrees(c, s, actions[0]);
      RunAgrees(c, Apply(c, s, actions[0]), actions[1..]);
    }
  }

  lemma ReachedAgrees(c: Config, actions: seq<Action>)
    ensures Agreed(Reached(c, actions))
  {
    InitInv(c);
    RunAgrees(c, Init(), actions);
  }

  /**
   * Within one process lifetime a GPU that a task needs is held for its active worker,
   * and the worker's row says so.
   */
  lemma NeededGpuIsHeld(c: Config, actions: seq<Action>, t: TaskId, w: WorkerId, u: Uuid)
    requires var db := Reached(c, actions).db;
      t in db.tasks && db.tasks[t].need == Some(GpuLease(u)) && w in ActiveOf(db, t)
    ensures Reached(c, actions).db.workers[w].lease == Some(GpuLease(u))
    ensures !c.restarts ==> u in Reached(c, actions).held && Reached(c, actions).held[u] == w
  {
    var s := Reached(c, actions);
    ReachedAgrees(c, actions);
    ReachedInv(c, actions);
    assert RowOk(s, w) && AsksForNeed(s, w);
    if !c.restarts { assert HeldFor(s, w, s.db.workers[w].lease); }
  }

  /** So two live tasks never need the same GPU. */
  lemma LiveTasksNeedDistinctGpus(c: Config, actions: seq<Action>, t: TaskId, v: TaskId, u: Uuid)
    requires !c.restarts && var db := Reached(c, actions).db;
      && IsLive(db, t) && db.tasks[t].need == Some(GpuLease(u))
      && IsLive(db, v) && db.tasks[v].need == Some(GpuLease(u))
    ensures t == v
  {
    OneActiveWorker(c, actions, t);
    OneActiveWorker(c, actions, v);
    var db := Reached(c, actions).db;
    var x :| x in ActiveOf(db, t);
    var y :| y in ActiveOf(db, v);
    NeededGpuIsHeld(c, actions, t, x, u);
    NeededGpuIsHeld(c, actions, v, y, u);
  }

  /** This attempt is finished, and nothing is held for it. */
  ghost predicate Bare(s: State, w: WorkerId) {
    w in s.attempts && s.attempts[w].pc.Finished? && forall u :: u in s.held ==> s.held[u] != w
  }

  /** A retirement that has committed, and read its worker's row, leaves nothing held for the worker. */
  lemma RetirementGivesBack(c: Config, s: State, t: TaskId)
    requires Agreed(s) && RowsInHand(s)
    requires t in s.retirements && s.retirements[t].pc.Retired? && s.retirements[t].pc.row.Some?
    ensures s.retirements[t].worker.Some?
    ensures Bare(Apply(c, s, ReleaseRetiree(t)), s.retirements[t].worker.value)
  {
    assert RowInHandOk(s, t) && ReadAsAsked(s, t);
    RetireeReleased(c, s, t);
    var w := s.retirements[t].worker.value;
    forall u | u in DoReleaseRetiree(s, t).held ensures s.held[u] != w {
      assert u in s.held;
    }
  }

  // --- proofs ---

  lemma StepAgrees(c: Config, s: State, a: Action)
    requires Inv(c, s) && Agreed(s)
    ensures Agreed(Apply(c, s, a))
  {
    if OfAttempt(a) {
      AttemptAgrees(c, s, a);
    } else if IsTableStep(a) {
      TableAgrees(c, s, a);
    } else if IsReadStep(a) {
      ReadAgrees(c, s, a);
    } else if IsDecideStep(a) {
      DecideAgrees(c, s, a);
    } else if IsLeaveStep(a) {
      LeaveAgrees(c, s, a);
    } else {
      RestAgrees(c, s, a);
    }
  }

  /** The same needs, for all tasks that are still there or were there. */
  ghost predicate SameNeeds(db: Db, db': Db) {
    forall t :: t in db'.tasks ==> t in db.tasks && db'.tasks[t].need == db.tasks[t].need
  }

  /** One attempt has moved on, with what it asked for. */
  ghost predicate MovedOn(s: State, s': State, w: WorkerId) {
    && w in s.attempts && w in s'.attempts && s'.attempts == s.attempts[w := s'.attempts[w]]
    && s'.attempts[w].task == s.attempts[w].task && s'.attempts[w].need == s.attempts[w].need
    && (HasLease(s'.attempts[w].pc) ==> s'.attempts[w].pc.lease == s.attempts[w].need)
    && s'.retirements == s.retirements && SameNeeds(s.db, s'.db)
    && (forall x :: x in s'.db.workers ==>
          || (x in s.db.workers && s'.db.workers[x].lease == s.db.workers[x].lease)
          || (x == w && s'.db.workers[x].lease == s.attempts[w].need))
    && (forall u :: u in s'.held ==>
          || (u in s.held && s'.held[u] == s.held[u])
          || (s'.held[u] == w && s.attempts[w].need == Some(GpuLease(u))))
  }

  lemma MovedAgrees(s: State, s': State, w: WorkerId)
    requires Agreed(s) && MovedOn(s, s', w)
    ensures Agreed(s')
  {
    forall x | x in s'.attempts ensures AsksForNeed(s', x) {
      assert AsksForNeed(s, x);
    }
    forall t | t in s'.retirements ensures ReadAsAsked(s', t) {
      assert ReadAsAsked(s, t);
    }
  }

  lemma AttemptAgrees(c: Config, s: State, a: Action)
    requires Agreed(s) && OfAttempt(a)
    ensures Agreed(Apply(c, s, a))
  {
    if a.w !in s.attempts {
      UnknownAttempt(c, s, a);
    } else if Apply(c, s, a) != s {
      assert AsksForNeed(s, a.w);
      if IsLaunchStep(a) {
        LaunchMovesOn(c, s, a);
      } else if IsRegisterStep(a) {
        RegisterMovesOn(c, s, a);
      } else {
        CompensateMovesOn(c, s, a);
      }
      MovedAgrees(s, Apply(c, s, a), a.w);
    }
  }

  lemma UnknownAttempt(c: Config, s: State, a: Action)
    requires OfAttempt(a) && a.w !in s.attempts
    ensures Apply(c, s, a) == s
  {
    if IsLaunchStep(a) {
      UnknownLaunch(c, s, a);
    } else if IsRegisterStep(a) {
      UnknownRegister(c, s, a);
    }
  }

  lemma UnknownLaunch(c: Config, s: State, a: Action)
    requires IsLaunchStep(a) && a.w !in s.attempts
    ensures Apply(c, s, a) == s
  {
  }

  lemma UnknownRegister(c: Config, s: State, a: Action)
    requires IsRegisterStep(a) && a.w !in s.attempts
    ensures Apply(c, s, a) == s
  {
  }

  lemma LaunchMovesOn(c: Config, s: State, a: Action)
    requires IsLaunchStep(a) && a.w in s.attempts && AsksForNeed(s, a.w) && Apply(c, s, a) != s
    ensures MovedOn(s, Apply(c, s, a), a.w)
  {
    match a
    case PrepareFails(w, retryable) => assert MovedOn(s, DoPrepareFails(s, w, retryable), w);
    case PrepareOk(w) => PrepareMovesOn(s, w);
    case StartFails(w, retryable) => assert MovedOn(s, DoStartFails(s, w, retryable), w);
    case StartOk(w) => assert MovedOn(s, DoStartOk(s, w), w);
    case BuildFails(w, retryable) => assert MovedOn(s, DoBuildFails(s, w, retryable), w);
  }

  lemma PrepareMovesOn(s: State, w: WorkerId)
    requires w in s.attempts && DoPrepareOk(s, w) != s
    ensures MovedOn(s, DoPrepareOk(s, w), w)
  {
  }

  lemma RegisterMovesOn(c: Config, s: State, a: Action)
    requires IsRegisterStep(a) && a.w in s.attempts && AsksForNeed(s, a.w) && Apply(c, s, a) != s
    ensures MovedOn(s, Apply(c, s, a), a.w)
  {
    match a
    case Register(w) => assert MovedOn(s, DoRegister(s, w), w);
    case Activate(w, now, ok) => ActivateMovesOn(c, s, w, now, ok);
    case StopStarted(w, ok) => assert MovedOn(s, DoStopStarted(s, w, ok), w);
  }

  lemma ActivateMovesOn(c: Config, s: State, w: WorkerId, now: int, ok: bool)
    requires w in s.attempts && AsksForNeed(s, w) && DoActivate(c, s, w, now, ok) != s
    ensures MovedOn(s, DoActivate(c, s, w, now, ok), w)
  {
  }

  lemma CompensateMovesOn(c: Config, s: State, a: Action)
    requires IsCompensateStep(a) && a.w in s.attempts && AsksForNeed(s, a.w) && Apply(c, s, a) != s
    ensures MovedOn(s, Apply(c, s, a), a.w)
  {
    match a
    case Unregister(w) => UnregisterMovesOn(s, w);
    case ReleaseLease(w) => ReleaseMovesOn(s, w);
    case Settle(w, now, ok) => SettleMovesOn(c, s, w, now, ok);
  }

  lemma UnregisterMovesOn(s: State, w: WorkerId)
    requires w in s.attempts && AsksForNeed(s, w) && DoUnregister(s, w) != s
    ensures MovedOn(s, DoUnregister(s, w), w)
  {
  }

  lemma ReleaseMovesOn(s: State, w: WorkerId)
    requires w in s.attempts && AsksForNeed(s, w) && DoReleaseLease(s, w) != s
    ensures MovedOn(s, DoReleaseLease(s, w), w)
  {
  }

  lemma SettleMovesOn(c: Config, s: State, w: WorkerId, now: int, ok: bool)
    requires w in s.attempts && DoSettle(c, s, w, now, ok) != s
    ensures MovedOn(s, DoSettle(c, s, w, now, ok), w)
  {
  }

  lemma TableAgrees(c: Config, s: State, a: Action)
    requires UsedOk(s) && Retires(s) && Agreed(s) && IsTableStep(a)
    ensures Agreed(Apply(c, s, a))
  {
    match a
    case CreateTask(t, row) => CreateAgrees(s, t, row);
    case Claim(k, ids, now) => ClaimAgrees(c, s, k, ids, now);
    case DeleteTask(t) => WritesAgree(s, DoDelete(s, t));
    case Sweep(cutoff, now) => WritesAgree(s, DoSweep(s, cutoff, now));
    case Steer(t, kind, now) => WritesAgree(s, DoSteer(s, t, kind, now));
  }

  /** A write that leaves needs and leases alone. */
  lemma WritesAgree(s: State, s': State)
    requires Agreed(s) && s' == s.(db := s'.db, handles := s'.handles, live := s'.live) && SameNeeds(s.db, s'.db)
    requires LeasesKept(s.db, s'.db)
    ensures Agreed(s')
  {
    forall x | x in s'.attempts ensures AsksForNeed(s', x) {
      assert AsksForNeed(s, x);
    }
    forall t | t in s'.retirements ensures ReadAsAsked(s', t) {
      assert ReadAsAsked(s, t);
    }
  }

  lemma CreateAgrees(s: State, t: TaskId, row: TaskRow)
    requires UsedOk(s) && Agreed(s)
    ensures Agreed(DoCreate(s, t, row))
  {
    var s' := DoCreate(s, t, row);
    forall x | x in s'.attempts ensures AsksForNeed(s', x) {
      assert AsksForNeed(s, x);
    }
    forall u | u in s'.retirements ensures ReadAsAsked(s', u) {
      assert ReadAsAsked(s, u);
    }
  }

  lemma ClaimAgrees(c: Config, s: State, k: TickId, ids: map<TaskId, WorkerId>, now: int)
    requires Retires(s) && Agreed(s)
    ensures Agreed(DoClaim(c, s, k, ids, now))
  {
    ClaimCases(c, s, k, ids, now);
    var s' := DoClaim(c, s, k, ids, now);
    if s' != s {
      var taken := Elements(Claimable(s.db, c.maxActive));
      NewAsk(s.db.tasks, k, taken, ids);
      ClaimsAgree(s, NewAttempts(s.db.tasks, k, taken, ids), s');
    }
  }

  lemma NewAsk(tasks: map<TaskId, TaskRow>, k: TickId, taken: set<TaskId>, ids: map<TaskId, WorkerId>)
    requires taken <= ids.Keys && taken <= tasks.Keys
    requires forall t, u :: t in taken && u in taken && t != u ==> ids[t] != ids[u]
    ensures var added := NewAttempts(tasks, k, taken, ids);
      forall x :: x in added ==>
        && added[x].task in tasks && added[x].need == tasks[added[x].task].need && added[x].pc == Claimed
        && added[x].task in taken && ids[added[x].task] == x
  {
  }

  lemma ClaimsAgree(s: State, added: map<WorkerId, Attempt>, s': State)
    requires Retires(s) && Agreed(s) && s'.attempts == s.attempts + added && added.Keys !! s.attempts.Keys
    requires s'.retirements == s.retirements && s'.held == s.held && s'.db.workers == s.db.workers
    requires SameNeeds(s.db, s'.db)
    requires forall x :: x in added ==>
      added[x].task in s.db.tasks && added[x].need == s.db.tasks[added[x].task].need && added[x].pc == Claimed
    ensures Agreed(s')
  {
    forall x | x in s'.attempts ensures AsksForNeed(s', x) {
      if x in s.attempts { assert AsksForNeed(s, x); }
    }
    forall u | u in s'.retirements ensures ReadAsAsked(s', u) {
      assert RetireOk(s, u) && ReadAsAsked(s, u);
    }
  }

  ghost predicate HeldShrinks(held: map<Uuid, WorkerId>, held': map<Uuid, WorkerId>) {
    forall u :: u in held' ==> u in held && held'[u] == held[u]
  }

  ghost predicate LeasesKept(db: Db, db': Db) {
    forall x :: x in db'.workers ==> x in db.workers && db'.workers[x].lease == db.workers[x].lease
  }

  /** Only the retirement of `t` has moved, and it agrees. */
  lemma RetireAgrees(s: State, s': State, t: TaskId)
    requires Agreed(s) && RetireMove(s, s', t) && HeldShrinks(s.held, s'.held)
    requires t in s'.retirements ==> ReadAsAsked(s', t)
    ensures Agreed(s')
  {
    forall x | x in s'.attempts ensures AsksForNeed(s', x) {
      assert AsksForNeed(s, x);
    }
    forall u | u in s'.retirements ensures ReadAsAsked(s', u) {
      if u != t {
        RetireMoveOutside(s, s', t, u);
        assert ReadAsAsked(s, u);
      }
    }
  }

  lemma ReadAgrees(c: Config, s: State, a: Action)
    requires Inv(c, s) && Agreed(s) && IsReadStep(a)
    ensures Agreed(Apply(c, s, a))
  {
    match a
    case BeginRetire(t, worker, target, stop) => BeginAgrees(s, t, worker, target, stop);
    case ReadWorker(t) => ReadWorkerAgrees(s, t);
    case ReadTask(t) => ReadTaskAgrees(s, t);
    case ReadFails(t) => ReadFailsAgrees(c, s, t);
  }

  lemma BeginAgrees(s: State, t: TaskId, worker: Option<WorkerId>, target: TaskState, stop: bool)
    requires UsedOk(s) && Handles(s) && Rows(s) && OwnerOk(s) && Agreed(s)
    ensures Agreed(DoBeginRetire(s, t, worker, target, stop))
  {
    var s' := DoBeginRetire(s, t, worker, target, stop);
    if s' != s {
      BeginRetireFits(s, t, worker, target, stop);
      RetireAgrees(s, s', t);
    }
  }

  lemma ReadWorkerAgrees(s: State, t: TaskId)
    requires Retires(s) && Rows(s) && Agreed(s)
    ensures Agreed(DoReadWorker(s, t))
  {
    var s' := DoReadWorker(s, t);
    if s' != s {
      ReadWorkerFits(s, t);
      ReadWorkerAsked(s, t);
      RetireAgrees(s, s', t);
    }
  }

  lemma ReadWorkerAsked(s: State, t: TaskId)
    requires RowsAsAsked(s) && t in s.retirements && s.retirements[t].pc.Begun?
    ensures ReadAsAsked(DoReadWorker(s, t), t)
    ensures DoReadWorker(s, t).held == s.held
  {
  }

  lemma ReadTaskAgrees(s: State, t: TaskId)
    requires Retires(s) && Agreed(s)
    ensures Agreed(DoReadTask(s, t))
  {
    var s' := DoReadTask(s, t);
    if s' != s {
      var r := s.retirements[t];
      assert RetireOk(s, t) && ReadAsAsked(s, t);
      if r.worker.Some? { assert AsksForNeed(s, r.worker.value); }
      ReadTaskMoves(s, t);
      ReadTaskAsked(s, t);
      RetireAgrees(s, s', t);
    }
  }

  lemma ReadTaskAsked(s: State, t: TaskId)
    requires t in s.retirements && s.retirements[t].pc.WorkerRead? && ReadAsAsked(s, t) && RetireOk(s, t)
    requires var r := s.retirements[t]; r.worker.Some? ==> AsksForNeed(s, r.worker.value)
    ensures ReadAsAsked(DoReadTask(s, t), t)
    ensures DoReadTask(s, t).held == s.held
  {
  }

  lemma ReadFailsAgrees(c: Config, s: State, t: TaskId)
    requires Retires(s) && RowsInHand(s) && Reads(s) && Agreed(s)
    ensures Agreed(DoReadFails(c, s, t))
  {
    var s' := DoReadFails(c, s, t);
    if s' != s {
      assert RetireFacts(s, t);
      ReadFailsFits(c, s, t);
      RetireAgrees(s, s', t);
    }
  }

  lemma DecideAgrees(c: Config, s: State, a: Action)
    requires Inv(c, s) && Agreed(s) && IsDecideStep(a)
    ensures Agreed(Apply(c, s, a))
  {
    match a
    case StopRetiree(t, ok) => StopAgrees(c, s, t, ok);
    case Judge(t, passed) => JudgeAgrees(c, s, t, passed);
    case Commit(t, now, ok) => CommitAgrees(c, s, t, now, ok);
  }

  lemma StopAgrees(c: Config, s: State, t: TaskId, ok: bool)
    requires Retires(s) && RowsInHand(s) && Reads(s) && LeaseOk(c, s) && Agreed(s)
    ensures Agreed(DoStopRetiree(s, t, ok))
  {
    var s' := DoStopRetiree(s, t, ok);
    if s' != s {
      assert RetireFacts(s, t) && ReadAsAsked(s, t);
      StopRetireeFits(c, s, t, ok);
      SamePcAsked(s, s', t);
      RetireAgrees(s, s', t);
    }
  }

  lemma JudgeAgrees(c: Config, s: State, t: TaskId, passed: bool)
    requires Retires(s) && RowsInHand(s) && Reads(s) && LeaseOk(c, s) && Agreed(s)
    ensures Agreed(DoJudge(s, t, passed))
  {
    var s' := DoJudge(s, t, passed);
    if s' != s {
      assert RetireFacts(s, t) && ReadAsAsked(s, t);
      JudgeFits(c, s, t, passed);
      SamePcAsked(s, s', t);
      RetireAgrees(s, s', t);
    }
  }

  /** A retirement that goes on with the same rows in hand. */
  lemma SamePcAsked(s: State, s': State, t: TaskId)
    requires t in s.retirements && t in s'.retirements && ReadAsAsked(s, t) && s'.attempts == s.attempts
    requires s'.retirements[t].worker == s.retirements[t].worker
    requires s'.retirements[t].pc.Row() == s.retirements[t].pc.Row()
    requires s'.retirements[t].pc.Uncommitted() || s'.retirements[t].pc.Retired? ==>
      s.retirements[t].pc.Uncommitted() && s'.retirements[t].pc.task == s.retirements[t].pc.task
    ensures ReadAsAsked(s', t)
  {
  }

  lemma CommitAgrees(c: Config, s: State, t: TaskId, now: int, ok: bool)
    requires Agreed(s)
    ensures Agreed(DoCommit(c, s, t, now, ok))
  {
    var s' := DoCommit(c, s, t, now, ok);
    if t in s.retirements && s.retirements[t].pc.Judged? {
      assert ReadAsAsked(s, t);
      var pc := s'.retirements[t].pc;
      assert s' == WithRetirePc(s, t, pc).(db := s'.db) by { CommitLeaves(c, s, t, now, ok); }
      CommitNeeds(c, s, t, now, ok);
      CommitRowLeases(c, s, t, now, ok);
      CommittedAgrees(s, s', t);
    }
  }

  lemma CommitLeaves(c: Config, s: State, t: TaskId, now: int, ok: bool)
    requires t in s.retirements && s.retirements[t].pc.Judged?
    ensures var s' := DoCommit(c, s, t, now, ok); var before := s.retirements[t].pc;
      && t in s'.retirements && s' == WithRetirePc(s, t, s'.retirements[t].pc).(db := s'.db)
      && (s'.retirements[t].pc == Exiting || s'.retirements[t].pc == Retired(before.row, before.task))
  {
  }

  lemma CommitNeeds(c: Config, s: State, t: TaskId, now: int, ok: bool)
    ensures SameNeeds(s.db, DoCommit(c, s, t, now, ok).db)
  {
  }

  lemma CommitRowLeases(c: Config, s: State, t: TaskId, now: int, ok: bool)
    ensures LeasesKept(s.db, DoCommit(c, s, t, now, ok).db)
  {
    if t in s.retirements && s.retirements[t].pc.Judged? {
      CommitHasShape(c, s, t, now, ok);
    }
  }

  lemma CommittedAgrees(s: State, s': State, t: TaskId)
    requires Agreed(s) && t in s.retirements && s.retirements[t].pc.Judged? && t in s'.retirements
    requires s' == WithRetirePc(s, t, s'.retirements[t].pc).(db := s'.db)
    requires s'.retirements[t].pc == Exiting
          || s'.retirements[t].pc == Retired(s.retirements[t].pc.row, s.retirements[t].pc.task)
    requires SameNeeds(s.db, s'.db) && LeasesKept(s.db, s'.db)
    ensures Agreed(s')
  {
    forall x | x in s'.attempts ensures AsksForNeed(s', x) {
      assert AsksForNeed(s, x);
    }
    forall u | u in s'.retirements ensures ReadAsAsked(s', u) {
      assert ReadAsAsked(s, u);
    }
  }

  lemma LeaveAgrees(c: Config, s: State, a: Action)
    requires Inv(c, s) && Agreed(s) && IsLeaveStep(a)
    ensures Agreed(Apply(c, s, a))
  {
    match a
    case ReleaseRetiree(t) => ReleaseAgrees(c, s, t);
    case DropHandle(t) => DropAgrees(c, s, t);
    case ExitRetire(t) => ExitAgrees(s, t);
  }

  lemma ReleaseAgrees(c: Config, s: State, t: TaskId)
    requires Retires(s) && RowsInHand(s) && Reads(s) && Agreed(s)
    ensures Agreed(DoReleaseRetiree(s, t))
  {
    var s' := DoReleaseRetiree(s, t);
    if s' != s {
      assert RetireFacts(s, t) && ReadAsAsked(s, t);
      ReleaseRetireeFits(c, s, t);
      ReleaseShrinks(s, t);
      RetireAgrees(s, s', t);
    }
  }

  lemma ReleaseShrinks(s: State, t: TaskId)
    ensures HeldShrinks(s.held, DoReleaseRetiree(s, t).held)
    ensures t in s.retirements && s.retirements[t].pc.Retired? ==>
      t in DoReleaseRetiree(s, t).retirements && DoReleaseRetiree(s, t).retirements[t].pc.Dropping?
  {
  }

  lemma DropAgrees(c: Config, s: State, t: TaskId)
    requires Retires(s) && RowsInHand(s) && Reads(s) && Agreed(s)
    ensures Agreed(DoDropHandle(s, t))
  {
    var s' := DoDropHandle(s, t);
    if s' != s {
      assert RetireFacts(s, t) && ReadAsAsked(s, t);
      DropHandleFits(c, s, t);
      RetireAgrees(s, s', t);
    }
  }

  lemma ExitAgrees(s: State, t: TaskId)
    requires Agreed(s)
    ensures Agreed(DoExitRetire(s, t))
  {
    var s' := DoExitRetire(s, t);
    if s' != s {
      RetireAgrees(s, s', t);
    }
  }

  lemma RestAgrees(c: Config, s: State, a: Action)
    requires Agreed(s) && (IsMemoryStep(a) || a.Restart?)
    ensures Agreed(Apply(c, s, a))
  {
    match a
    case Append(t, event) => AppendAgrees(c, s, t, event);
    case WorkerDies(w) => WritesAgree(s, s.(live := s.live - {w}));
    case Reattach(t, w) => WritesAgree(s, DoReattach(s, t, w));
    case Restart => RestartAgrees(c, s);
  }

  lemma AppendAgrees(c: Config, s: State, t: TaskId, event: EventKind)
    requires Agreed(s)
    ensures Agreed(DoAppend(c, s, t, event))
  {
    WritesAgree(s, DoAppend(c, s, t, event));
  }

  lemma RestartAgrees(c: Config, s: State)
    requires Agreed(s)
    ensures Agreed(DoRestart(c, s))
  {
    var s' := DoRestart(c, s);
    forall x | x in s'.attempts ensures AsksForNeed(s', x) {
      assert AsksForNeed(s, x);
    }
  }
}
