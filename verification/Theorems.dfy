/** What the dispatch protocol guarantees in every state of every run. */
module Theorems {
  import opened Basics
  import opened Lifecycle
  import opened Tables
  import opened Queueing
  import opened Protocol
  import opened Invariant
  import opened Preservation

  /** The state a run of the whole system, from an empty control plane, ends in. */
  function Reached(c: Config, actions: seq<Action>): State {
    Run(c, Init(), actions)
  }

  /** One more action at the end of a run. */
  lemma {:induction false} RunSnoc(c: Config, s: State, actions: seq<Action>, a: Action)
    ensures Run(c, s, actions + [a]) == Apply(c, Run(c, s, actions), a)
    decreases |actions|
  {
    if actions == [] {
      assert ([a])[1..] == [];
      assert actions + [a] == [a];
      assert Run(c, s, [a]) == Run(c, Apply(c, s, a), []);
    } else {
      assert (actions + [a])[0] == actions[0] && (actions + [a])[1..] == actions[1..] + [a];
      RunSnoc(c, Apply(c, s, actions[0]), actions[1..], a);
    }
  }

  lemma {:induction false} RunConcat(c: Config, s: State, a: seq<Action>, b: seq<Action>)
    ensures Run(c, s, a + b) == Run(c, Run(c, s, a), b)
    decreases |a|
  {
    if a == [] {
      assert a + b == b;
    } else {
      assert (a + b)[1..] == a[1..] + b;
      RunConcat(c, Apply(c, s, a[0]), a[1..], b);
    }
  }

  lemma ReachedInv(c: Config, actions: seq<Action>)
    ensures Inv(c, Reached(c, actions))
  {
    InitInv(c);
    RunKeepsInv(c, Init(), actions);
  }

  // --- one worker per live task ---

  function ActiveOf(db: Db, t: TaskId): set<WorkerId> {
    set w | w in ActiveWorkers(db) && db.workers[w].task == t
  }

  /**
   * A live task has exactly one un-ended worker row and no task ever has two.
   * Without store faults, a task that is not live has none.
   */
  lemma OneActiveWorker(c: Config, actions: seq<Action>, t: TaskId)
    requires t in Reached(c, actions).db.tasks
    ensures var db := Reached(c, actions).db;
      && |ActiveOf(db, t)| <= 1
      && (IsLive(db, t) ==> |ActiveOf(db, t)| == 1)
      && (!c.faults && !IsLive(db, t) ==> ActiveOf(db, t) == {})
  {
    var s := Reached(c, actions);
    ReachedInv(c, actions);
    ActiveIsOwner(c, s, t);
  }

  lemma ActiveIsOwner(c: Config, s: State, t: TaskId)
    requires Standings(s) && Rows(s) && OpenRowOk(c, s) && t in s.db.tasks
    ensures |ActiveOf(s.db, t)| <= 1
    ensures IsLive(s.db, t) ==> t in s.owner && ActiveOf(s.db, t) == {s.owner[t]}
    ensures !c.faults && !IsLive(s.db, t) ==> ActiveOf(s.db, t) == {}
  {
    forall w | w in ActiveOf(s.db, t) ensures t in s.owner && w == s.owner[t] {
      assert RowOk(s, w);
    }
    if ActiveOf(s.db, t) != {} {
      assert ActiveOf(s.db, t) == {s.owner[t]};
    }
    if IsLive(s.db, t) {
      assert StandingOk(s, t) && RowOk(s, s.owner[t]);
    }
  }

  /** An activated attempt stays activated, so "at most once" below covers the whole run. */
  lemma {:induction false} ActivationIsFinal(c: Config, s: State, actions: seq<Action>, w: WorkerId)
    requires w in s.attempts && s.attempts[w].pc == Finished(Activated)
    ensures var s' := Run(c, s, actions);
      w in s'.attempts && s'.attempts[w].pc == Finished(Activated) && s'.attempts[w].task == s.attempts[w].task
    decreases |actions|
  {
    if actions == [] {
    } else {
      FinishedStays(c, s, actions[0], w);
      ActivationIsFinal(c, Apply(c, s, actions[0]), actions[1..], w);
    }
  }

  predicate OfAttempt(a: Action) {
    IsLaunchStep(a) || IsRegisterStep(a) || IsCompensateStep(a)
  }

  /** At most the attempt `w` differs, and of that only how far it has got. */
  predicate OneAttempt(m: map<WorkerId, Attempt>, m': map<WorkerId, Attempt>, w: WorkerId) {
    || m' == m
    || (w in m && w in m' && m' == m[w := m'[w]] && !m[w].pc.Finished?
        && m'[w].task == m[w].task && m'[w].tick == m[w].tick && m'[w].need == m[w].need
        && (m[w].known ==> m'[w].known))
  }

  /** No action of an attempt touches retirements, and only an activation is counted. */
  predicate ByAttempt(s: State, s': State, a: Action)
    requires OfAttempt(a)
  {
    && OneAttempt(s.attempts, s'.attempts, a.w)
    && s'.retirements == s.retirements && s'.owner == s.owner
    && (a.Activate? || s'.started == s.started)
  }

  lemma AttemptShape(c: Config, s: State, a: Action)
    requires OfAttempt(a)
    ensures ByAttempt(s, Apply(c, s, a), a)
  {
    if IsLaunchStep(a) {
      LaunchShape(c, s, a);
    } else if IsRegisterStep(a) {
      RegisterShape(c, s, a);
    } else {
      CompensateShape(c, s, a);
    }
  }

  lemma LaunchShape(c: Config, s: State, a: Action)
    requires IsLaunchStep(a)
    ensures ByAttempt(s, Apply(c, s, a), a)
  {
    match a
    case PrepareFails(w, retryable) => PrepareFailsShape(s, w, retryable);
    case PrepareOk(w) => PrepareShape(s, w);
    case StartFails(w, retryable) => StartFailsShape(s, w, retryable);
    case StartOk(w) => StartOkShape(s, w);
    case BuildFails(w, retryable) => BuildFailsShape(s, w, retryable);
  }

  lemma PrepareShape(s: State, w: WorkerId)
    ensures ByAttempt(s, DoPrepareOk(s, w), PrepareOk(w))
  {
    var s' := DoPrepareOk(s, w);
    if s' != s {
      PcShape(s, s', PrepareOk(w), Leased(s.attempts[w].need));
    }
  }

  lemma PcShape(s: State, s': State, a: Action, pc: Pc)
    requires OfAttempt(a) && a.w in s.attempts && !s.attempts[a.w].pc.Finished?
    requires s'.attempts == s.attempts[a.w := s.attempts[a.w].(pc := pc)]
    requires s'.retirements == s.retirements && s'.owner == s.owner
    requires a.Activate? || s'.started == s.started
    ensures ByAttempt(s, s', a)
  {
  }

  lemma RegisterShape(c: Config, s: State, a: Action)
    requires IsRegisterStep(a)
    ensures ByAttempt(s, Apply(c, s, a), a)
  {
    match a
    case Register(w) => assert ByAttempt(s, DoRegister(s, w), a);
    case Activate(w, now, ok) => ActivateShape(c, s, w, now, ok);
    case StopStarted(w, ok) => StopStartedShape(s, w, ok);
  }

  lemma ActivateShape(c: Config, s: State, w: WorkerId, now: int, ok: bool)
    ensures ByAttempt(s, DoActivate(c, s, w, now, ok), Activate(w, now, ok))
  {
    var s' := DoActivate(c, s, w, now, ok);
    if w in s.attempts && s.attempts[w].pc.Registered? {
      PcShape(s, s', Activate(w, now, ok), s'.attempts[w].pc);
    }
  }

  lemma CompensateShape(c: Config, s: State, a: Action)
    requires IsCompensateStep(a)
    ensures ByAttempt(s, Apply(c, s, a), a)
  {
    match a
    case Unregister(w) => UnregisterShape(s, w);
    case ReleaseLease(w) => ReleaseLeaseShape(s, w);
    case Settle(w, now, ok) => SettleShape(c, s, w, now, ok);
  }

  lemma PrepareFailsShape(s: State, w: WorkerId, retryable: bool)
    ensures ByAttempt(s, DoPrepareFails(s, w, retryable), PrepareFails(w, retryable))
  {
    var s' := DoPrepareFails(s, w, retryable);
    if s' != s {
      PcShape(s, s', PrepareFails(w, retryable), s'.attempts[w].pc);
    }
  }

  lemma StartFailsShape(s: State, w: WorkerId, retryable: bool)
    ensures ByAttempt(s, DoStartFails(s, w, retryable), StartFails(w, retryable))
  {
    var s' := DoStartFails(s, w, retryable);
    if s' != s {
      PcShape(s, s', StartFails(w, retryable), s'.attempts[w].pc);
    }
  }

  lemma StartOkShape(s: State, w: WorkerId)
    ensures ByAttempt(s, DoStartOk(s, w), StartOk(w))
  {
    var s' := DoStartOk(s, w);
    if s' != s {
      PcShape(s, s', StartOk(w), s'.attempts[w].pc);
    }
  }

  lemma BuildFailsShape(s: State, w: WorkerId, retryable: bool)
    ensures ByAttempt(s, DoBuildFails(s, w, retryable), BuildFails(w, retryable))
  {
    var s' := DoBuildFails(s, w, retryable);
    if s' != s {
      PcShape(s, s', BuildFails(w, retryable), s'.attempts[w].pc);
    }
  }

  lemma StopStartedShape(s: State, w: WorkerId, ok: bool)
    ensures ByAttempt(s, DoStopStarted(s, w, ok), StopStarted(w, ok))
  {
    var s' := DoStopStarted(s, w, ok);
    if s' != s {
      PcShape(s, s', StopStarted(w, ok), s'.attempts[w].pc);
    }
  }

  lemma UnregisterShape(s: State, w: WorkerId)
    ensures ByAttempt(s, DoUnregister(s, w), Unregister(w))
  {
    var s' := DoUnregister(s, w);
    if s' != s {
      PcShape(s, s', Unregister(w), s'.attempts[w].pc);
    }
  }

  lemma ReleaseLeaseShape(s: State, w: WorkerId)
    ensures ByAttempt(s, DoReleaseLease(s, w), ReleaseLease(w))
  {
    var s' := DoReleaseLease(s, w);
    if s' != s {
      PcShape(s, s', ReleaseLease(w), s'.attempts[w].pc);
    }
  }

  lemma SettleShape(c: Config, s: State, w: WorkerId, now: int, ok: bool)
    ensures ByAttempt(s, DoSettle(c, s, w, now, ok), Settle(w, now, ok))
  {
    var s' := DoSettle(c, s, w, now, ok);
    if s' != s {
      PcShape(s, s', Settle(w, now, ok), s'.attempts[w].pc);
    }
  }

  /** An action of one attempt leaves every other attempt alone, and its own too once that is finished. */
  lemma AttemptFrame(c: Config, s: State, a: Action, w: WorkerId)
    requires OfAttempt(a) && w in s.attempts && (a.w != w || s.attempts[w].pc.Finished?)
    ensures w in Apply(c, s, a).attempts && Apply(c, s, a).attempts[w] == s.attempts[w]
  {
    AttemptShape(c, s, a);
  }

  /** Only claims, restarts and an attempt's own actions touch the attempts at all. */
  lemma OtherFrame(c: Config, s: State, a: Action)
    requires !OfAttempt(a) && !a.Claim? && !a.Restart?
    ensures Apply(c, s, a).attempts == s.attempts
  {
    if IsReadStep(a) {
      ReadFrame(c, s, a);
    } else if IsDecideStep(a) {
      DecideFrame(c, s, a);
    }
  }

  lemma ReadFrame(c: Config, s: State, a: Action)
    requires IsReadStep(a)
    ensures Apply(c, s, a).attempts == s.attempts
  {
  }

  lemma DecideFrame(c: Config, s: State, a: Action)
    requires IsDecideStep(a)
    ensures Apply(c, s, a).attempts == s.attempts
  {
  }

  lemma ClaimFrame(c: Config, s: State, k: TickId, ids: map<TaskId, WorkerId>, now: int, w: WorkerId)
    requires w in s.attempts
    ensures w in DoClaim(c, s, k, ids, now).attempts && DoClaim(c, s, k, ids, now).attempts[w] == s.attempts[w]
  {
    ClaimCases(c, s, k, ids, now);
    var s' := DoClaim(c, s, k, ids, now);
    if s' != s {
      ClaimHasShape(c, s, Elements(Claimable(s.db, c.maxActive)), k, ids, now, s');
    }
  }

  lemma FinishedStays(c: Config, s: State, a: Action, w: WorkerId)
    requires w in s.attempts && s.attempts[w].pc.Finished?
    ensures w in Apply(c, s, a).attempts && Apply(c, s, a).attempts[w] == s.attempts[w]
  {
    if a.Claim? {
      ClaimFrame(c, s, a.k, a.ids, a.now, w);
    } else if OfAttempt(a) {
      AttemptFrame(c, s, a, w);
    } else if !a.Restart? {
      OtherFrame(c, s, a);
    }
  }

  lemma ActivatedAtMostOnce(c: Config, actions: seq<Action>, v: WorkerId, w: WorkerId)
    requires var s := Reached(c, actions);
      && v in s.attempts && w in s.attempts
      && s.attempts[v].pc == Finished(Activated) && s.attempts[w].pc == Finished(Activated)
      && s.attempts[v].task == s.attempts[w].task
    ensures v == w
  {
    ReachedInv(c, actions);
  }

  // --- capacity ---

  /** Un-ended workers plus reserved tasks stay within the limit, whoever claims. */
  lemma {:induction false} CapacityRespected(c: Config, s: State, actions: seq<Action>)
    requires Inv(c, s)
    ensures Load(Run(c, s, actions).db) <= if Load(s.db) <= c.maxActive then c.maxActive else Load(s.db)
    decreases |actions|
  {
    if actions == [] {
    } else {
      StepKeepsInv(c, s, actions[0]);
      LoadStep(c, s, actions[0]);
      CapacityRespected(c, Apply(c, s, actions[0]), actions[1..]);
    }
  }

  lemma CapacityNeverExceeded(c: Config, actions: seq<Action>)
    ensures Load(Reached(c, actions).db) <= if c.maxActive < 0 then 0 else c.maxActive
  {
    InitInv(c);
    assert ActiveWorkers(EmptyDb()) == {} && DispatchingTasks(EmptyDb()) == {};
    CapacityRespected(c, Init(), actions);
  }

  /** Only a claim raises the load, and only into the room that was left. */
  lemma LoadStep(c: Config, s: State, a: Action)
    requires Inv(c, s)
    ensures a.Claim? ==> Load(Apply(c, s, a).db) <= c.maxActive || Load(Apply(c, s, a).db) == Load(s.db)
    ensures a.Activate? ==> Load(Apply(c, s, a).db) == Load(s.db)
    ensures !a.Claim? ==> Load(Apply(c, s, a).db) <= Load(s.db)
  {
    var db' := Apply(c, s, a).db;
    if a.Claim? {
      ClaimLoad(s.db, c.maxActive, a.now);
    } else if a.Activate? {
      if a.w in s.attempts && s.attempts[a.w].pc.Registered? {
        var t := s.attempts[a.w].task;
        ActivateLoad(s.db, t, a.w, WorkerRow(t, s.attempts[a.w].pc.lease, a.now, None), a.now);
      }
    } else if a.Commit? {
      CommitLoad(c, s, a.t, a.now, a.storeOk);
    } else {
      OtherLoad(c, s, a);
    }
  }

  lemma CommitLoad(c: Config, s: State, t: TaskId, now: int, storeOk: bool)
    requires Retires(s) && Reads(s)
    ensures Load(DoCommit(c, s, t, now, storeOk).db) <= Load(s.db)
  {
    if t in s.retirements && s.retirements[t].pc.Judged? {
      assert RetireOk(s, t) && ReadOk(s, t);
      LoadMonotone(s.db, DoCommit(c, s, t, now, storeOk).db);
    }
  }

  /** A write that turns no task into a reserved one and opens no worker row. */
  ghost predicate OnlyReleases(db: Db, db': Db) {
    && (forall w :: w in db'.workers && db'.workers[w].ended.None? ==> w in db.workers && db.workers[w].ended.None?)
    && (forall t :: StateIs(db', t, Dispatching) ==> StateIs(db, t, Dispatching))
  }

  lemma OtherWrites(c: Config, s: State, a: Action)
    requires IsTableStep(a) && !a.Claim?
    ensures OnlyReleases(s.db, Apply(c, s, a).db)
  {
    if a.Steer? { SteerIsTame(s, a.t, a.kind, a.now); }
  }

  lemma SettleWrites(c: Config, s: State, w: WorkerId, now: int, storeOk: bool)
    ensures OnlyReleases(s.db, DoSettle(c, s, w, now, storeOk).db)
  {
  }

  lemma QuietDb(c: Config, s: State, a: Action)
    requires !IsTableStep(a) && !a.Settle? && !a.Append? && !a.Activate? && !a.Commit?
    ensures Apply(c, s, a).db == s.db
  {
    if OfAttempt(a) {
      AttemptQuiet(c, s, a);
    } else {
      RetireQuiet(c, s, a);
    }
  }

  lemma AttemptQuiet(c: Config, s: State, a: Action)
    requires OfAttempt(a) && !a.Settle? && !a.Activate?
    ensures Apply(c, s, a).db == s.db
  {
  }

  lemma RetireQuiet(c: Config, s: State, a: Action)
    requires !OfAttempt(a) && !IsTableStep(a) && !a.Append? && !a.Commit?
    ensures Apply(c, s, a).db == s.db
  {
  }

  lemma ReleasesLoad(db: Db, db': Db)
    requires OnlyReleases(db, db')
    ensures Load(db') <= Load(db)
  {
    forall t | t in DispatchingTasks(db') ensures t in DispatchingTasks(db) {
      assert StateIs(db', t, Dispatching);
    }
    LoadMonotone(db, db');
  }

  lemma AppendWrites(c: Config, s: State, t: TaskId, event: EventKind)
    ensures OnlyReleases(s.db, DoAppend(c, s, t, event).db)
  {
  }

  lemma OtherLoad(c: Config, s: State, a: Action)
    requires !a.Claim? && !a.Activate? && !a.Commit?
    ensures Load(Apply(c, s, a).db) <= Load(s.db)
  {
    if IsTableStep(a) {
      OtherWrites(c, s, a);
      ReleasesLoad(s.db, Apply(c, s, a).db);
    } else if a.Settle? {
      SettleWrites(c, s, a.w, a.now, a.storeOk);
      ReleasesLoad(s.db, DoSettle(c, s, a.w, a.now, a.storeOk).db);
    } else if a.Append? {
      AppendWrites(c, s, a.t, a.event);
      ReleasesLoad(s.db, DoAppend(c, s, a.t, a.event).db);
    } else {
      QuietDb(c, s, a);
    }
  }

  /** Only an activation opens a worker row, and it makes the row's task live. */
  lemma RowsOpenByActivation(c: Config, s: State, a: Action, t: TaskId)
    requires Inv(c, s)
    ensures ActiveOf(Apply(c, s, a).db, t) <= ActiveOf(s.db, t) || IsLive(Apply(c, s, a).db, t)
  {
    if a.Activate? {
      ActivateOpens(c, s, a.w, a.now, a.storeOk, t);
    } else if a.Commit? {
      CommitOpensNone(c, s, a.t, a.now, a.storeOk, t);
    } else if a.Claim? {
      ClaimableRows(s.db, c.maxActive);
    } else {
      OthersOpenNone(c, s, a, t);
    }
  }

  lemma ActivateOpens(c: Config, s: State, w: WorkerId, now: int, storeOk: bool, t: TaskId)
    ensures var s' := DoActivate(c, s, w, now, storeOk);
      ActiveOf(s'.db, t) <= ActiveOf(s.db, t) || IsLive(s'.db, t)
  {
  }

  lemma CommitOpensNone(c: Config, s: State, u: TaskId, now: int, storeOk: bool, t: TaskId)
    ensures ActiveOf(DoCommit(c, s, u, now, storeOk).db, t) <= ActiveOf(s.db, t)
  {
    if u in s.retirements && s.retirements[u].pc.Judged? {
      CommitHasShape(c, s, u, now, storeOk);
    }
  }

  lemma OthersOpenNone(c: Config, s: State, a: Action, t: TaskId)
    requires Rows(s) && !a.Activate? && !a.Commit? && !a.Claim?
    ensures ActiveOf(Apply(c, s, a).db, t) <= ActiveOf(s.db, t)
  {
    var db' := Apply(c, s, a).db;
    if IsTableStep(a) {
      OtherWrites(c, s, a);
      WorkersOnlyLeave(c, s, a);
    } else if a.Settle? {
    } else if a.Append? {
    } else {
      QuietDb(c, s, a);
    }
  }

  lemma WorkersOnlyLeave(c: Config, s: State, a: Action)
    requires IsTableStep(a) && !a.Claim?
    ensures forall w :: w in Apply(c, s, a).db.workers ==>
      w in s.db.workers && Apply(c, s, a).db.workers[w] == s.db.workers[w]
  {
    if a.Steer? { SteerIsTame(s, a.t, a.kind, a.now); }
  }

  // --- GPU leases, within one process lifetime ---

  /** Two un-ended workers never carry the same GPU, and each one's UUID is still held for it. */
  lemma GpuHeldByItsWorker(c: Config, actions: seq<Action>, v: WorkerId, w: WorkerId, u: Uuid)
    requires !c.restarts
    requires var db := Reached(c, actions).db;
      && v in ActiveWorkers(db) && db.workers[v].lease == Some(GpuLease(u))
      && w in ActiveWorkers(db) && db.workers[w].lease == Some(GpuLease(u))
    ensures v == w
    ensures u in Reached(c, actions).held && Reached(c, actions).held[u] == w
  {
    var s := Reached(c, actions);
    ReachedInv(c, actions);
    assert HeldFor(s, v, s.db.workers[v].lease) && HeldFor(s, w, s.db.workers[w].lease);
  }

  /**
   * A UUID is given back only by the worker or attempt it is held for, and only once
   * that worker's row has ended (or went with its task) or no row was ever written.
   */
  lemma LeaseGivenBackByHolder(c: Config, s: State, a: Action, u: Uuid)
    requires Inv(c, s) && !c.restarts
    requires u in s.held && u !in Apply(c, s, a).held
    ensures s.held[u] !in ActiveWorkers(s.db)
    ensures a.ReleaseLease? || a.ReleaseRetiree?
    ensures a.ReleaseLease? ==> a.w == s.held[u] && a.w !in s.db.workers
    ensures a.ReleaseRetiree? ==> a.t in s.retirements && s.retirements[a.t].worker == Some(s.held[u])
  {
    OnlyReleasersRelease(c, s, a, u);
    if a.ReleaseLease? {
      LeaseReleased(c, s, a.w);
      AttemptGivesBack(c, s, a.w, u);
    } else {
      RetireeReleased(c, s, a.t);
      RetireeGivesBack(c, s, a.t, u);
    }
  }

  lemma LeaseReleased(c: Config, s: State, w: WorkerId)
    ensures Apply(c, s, ReleaseLease(w)) == DoReleaseLease(s, w)
  {
  }

  lemma RetireeReleased(c: Config, s: State, t: TaskId)
    ensures Apply(c, s, ReleaseRetiree(t)) == DoReleaseRetiree(s, t)
  {
  }

  lemma AttemptGivesBack(c: Config, s: State, w: WorkerId, u: Uuid)
    requires !c.restarts && LeaseOk(c, s) && Rows(s)
    requires u in s.held && u !in DoReleaseLease(s, w).held
    ensures s.held[u] == w && w !in s.db.workers
  {
    assert HeldFor(s, w, s.attempts[w].pc.Holding());
    NoRowYet(s, w);
  }

  lemma OnlyReleasersRelease(c: Config, s: State, a: Action, u: Uuid)
    requires !c.restarts && u in s.held && u !in Apply(c, s, a).held
    ensures a.ReleaseLease? || a.ReleaseRetiree?
  {
    if OfAttempt(a) && !a.ReleaseLease? {
      AttemptsRelease(c, s, a, u);
    } else if !OfAttempt(a) && !a.ReleaseRetiree? {
      OthersRelease(c, s, a, u);
    }
  }

  lemma AttemptsRelease(c: Config, s: State, a: Action, u: Uuid)
    requires OfAttempt(a) && !a.ReleaseLease? && u in s.held
    ensures u in Apply(c, s, a).held
  {
  }

  lemma OthersRelease(c: Config, s: State, a: Action, u: Uuid)
    requires !OfAttempt(a) && !a.ReleaseRetiree? && !c.restarts && u in s.held
    ensures u in Apply(c, s, a).held
  {
  }

  lemma RetireeGivesBack(c: Config, s: State, t: TaskId, u: Uuid)
    requires !c.restarts && LeaseOk(c, s) && RowsInHand(s)
    requires u in s.held && u !in DoReleaseRetiree(s, t).held
    ensures t in s.retirements && s.retirements[t].worker == Some(s.held[u]) && s.held[u] !in ActiveWorkers(s.db)
  {
    assert RowInHandOk(s, t);
  }

  // --- going back to the queue ---

  /** A task is queued only while none of the workers started for it is still running. */
  lemma QueuedHasNoWorker(c: Config, actions: seq<Action>, t: TaskId, w: WorkerId)
    requires StateIs(Reached(c, actions).db, t, Queued)
    requires w in Reached(c, actions).attempts && Reached(c, actions).attempts[w].task == t
    ensures w !in Reached(c, actions).live
  {
    var s := Reached(c, actions);
    ReachedInv(c, actions);
    assert StandingOk(s, t);
    assert LiveOnly(s, w);
  }

  /** An external worker's attempt is unfinished, activated, unsettled, or its task is over. */
  ghost predicate LiveOnly(s: State, w: WorkerId) {
    w in s.live ==> LiveOk(s, w)
  }

  /** The attempt could not stop its worker, or failed for good, or never got to write its outcome. */
  predicate Hopeless(pc: Pc) {
    || ((pc.Cleaning? || pc.Settling?) && pc.stopFailed)
    || ((pc.Failing? || pc.Cleaning? || pc.Settling?) && !pc.retryable)
    || pc == Finished(Unsettled)
  }

  ghost predicate Shut(s: State, w: WorkerId) {
    w in s.attempts && (Hopeless(s.attempts[w].pc) || Gone(s, s.attempts[w].task))
  }

  /** After a failed stop, or a failure for good, the task is never offered for dispatch again. */
  lemma {:induction false} FailedStopNeverRequeues(c: Config, s: State, actions: seq<Action>, w: WorkerId)
    requires Inv(c, s) && Shut(s, w)
    ensures Shut(Run(c, s, actions), w)
    ensures !StateIs(Run(c, s, actions).db, s.attempts[w].task, Queued)
    decreases |actions|
  {
    if actions == [] {
      var t := s.attempts[w].task;
      if t in s.db.tasks { assert StandingOk(s, t); }
    } else {
      StepKeepsInv(c, s, actions[0]);
      ShutStep(c, s, actions[0], w);
      FailedStopNeverRequeues(c, Apply(c, s, actions[0]), actions[1..], w);
    }
  }

  lemma ShutStep(c: Config, s: State, a: Action, w: WorkerId)
    requires Inv(c, s) && Shut(s, w)
    ensures Shut(Apply(c, s, a), w) && Apply(c, s, a).attempts[w].task == s.attempts[w].task
  {
    var t := s.attempts[w].task;
    if Gone(s, t) { GoneForever(c, s, a, t); }
    if !s.attempts[w].pc.Finished? { UnfinishedStanding(s, w); }
    ShutFrame(c, s, a, w);
  }

  lemma ShutFrame(c: Config, s: State, a: Action, w: WorkerId)
    requires Shut(s, w)
    requires Gone(s, s.attempts[w].task) ==> Gone(Apply(c, s, a), s.attempts[w].task)
    requires !s.attempts[w].pc.Finished? ==>
      Gone(s, s.attempts[w].task) || StateIs(s.db, s.attempts[w].task, Dispatching)
    ensures Shut(Apply(c, s, a), w) && Apply(c, s, a).attempts[w].task == s.attempts[w].task
  {
    if OfAttempt(a) && a.w == w && !s.attempts[w].pc.Finished? {
      OwnShutStep(c, s, a, w);
    } else {
      ShutByOthers(c, s, a, w);
    }
  }

  lemma ShutByOthers(c: Config, s: State, a: Action, w: WorkerId)
    requires Shut(s, w) && (OfAttempt(a) ==> a.w != w || s.attempts[w].pc.Finished?)
    requires Gone(s, s.attempts[w].task) ==> Gone(Apply(c, s, a), s.attempts[w].task)
    ensures Shut(Apply(c, s, a), w) && Apply(c, s, a).attempts[w].task == s.attempts[w].task
  {
    if OfAttempt(a) {
      AttemptFrame(c, s, a, w);
    } else if a.Claim? {
      ClaimFrame(c, s, a.k, a.ids, a.now, w);
    } else if !a.Restart? {
      OtherFrame(c, s, a);
    }
  }

  lemma OwnShutStep(c: Config, s: State, a: Action, w: WorkerId)
    requires OfAttempt(a) && a.w == w && Shut(s, w) && !s.attempts[w].pc.Finished?
    requires Gone(s, s.attempts[w].task) ==> Gone(Apply(c, s, a), s.attempts[w].task)
    requires Gone(s, s.attempts[w].task) || StateIs(s.db, s.attempts[w].task, Dispatching)
    ensures Shut(Apply(c, s, a), w) && Apply(c, s, a).attempts[w].task == s.attempts[w].task
  {
    if Gone(s, s.attempts[w].task) {
      OwnStepKeepsTask(c, s, a, w);
    } else if IsCompensateStep(a) {
      OwnCompensateShut(c, s, a, w);
    } else if IsRegisterStep(a) {
      OwnRegisterShut(c, s, a, w);
    } else {
      OwnLaunchShut(c, s, a, w);
    }
  }

  lemma OwnLaunchShut(c: Config, s: State, a: Action, w: WorkerId)
    requires IsLaunchStep(a) && a.w == w && w in s.attempts && Hopeless(s.attempts[w].pc)
    ensures Apply(c, s, a) == s
  {
  }

  lemma OwnRegisterShut(c: Config, s: State, a: Action, w: WorkerId)
    requires IsRegisterStep(a) && a.w == w && Shut(s, w) && Hopeless(s.attempts[w].pc)
    ensures Shut(Apply(c, s, a), w) && Apply(c, s, a).attempts[w].task == s.attempts[w].task
  {
    match a
    case Register(_) =>
    case Activate(_, _, _) =>
    case StopStarted(_, ok) => assert Shut(DoStopStarted(s, w, ok), w);
  }

  lemma OwnCompensateShut(c: Config, s: State, a: Action, w: WorkerId)
    requires IsCompensateStep(a) && a.w == w && Shut(s, w) && StateIs(s.db, s.attempts[w].task, Dispatching)
    ensures Shut(Apply(c, s, a), w) && Apply(c, s, a).attempts[w].task == s.attempts[w].task
  {
    match a
    case Unregister(_) => assert Shut(DoUnregister(s, w), w);
    case ReleaseLease(_) => assert Shut(DoReleaseLease(s, w), w);
    case Settle(_, now, ok) => SettleShuts(c, s, w, now, ok);
  }

  lemma SettleShuts(c: Config, s: State, w: WorkerId, now: int, ok: bool)
    requires w in s.attempts && Hopeless(s.attempts[w].pc) && StateIs(s.db, s.attempts[w].task, Dispatching)
    ensures var s' := DoSettle(c, s, w, now, ok); Shut(s', w) && s'.attempts[w].task == s.attempts[w].task
  {
  }

  lemma OwnStepKeepsTask(c: Config, s: State, a: Action, w: WorkerId)
    requires OfAttempt(a) && w in s.attempts
    ensures w in Apply(c, s, a).attempts && Apply(c, s, a).attempts[w].task == s.attempts[w].task
  {
    AttemptShape(c, s, a);
  }

  /** A task that is over or deleted stays so: terminal states are closed and ids are not reused. */
  lemma GoneForever(c: Config, s: State, a: Action, t: TaskId)
    requires Inv(c, s) && t in s.used && Gone(s, t)
    ensures t in Apply(c, s, a).used && Gone(Apply(c, s, a), t)
  {
    UsedGrows(c, s, a);
    if t !in s.db.tasks {
      NotRecreated(c, s, a, t);
    } else if t in Apply(c, s, a).db.tasks {
      TerminalStays(c, s, a, t);
    }
  }

  lemma TerminalStays(c: Config, s: State, a: Action, t: TaskId)
    requires Retires(s) && Reads(s) && t in s.db.tasks && s.db.tasks[t].state.Terminal() && t in Apply(c, s, a).db.tasks
    ensures Apply(c, s, a).db.tasks[t].state.Terminal()
  {
    StateMoves(c, s, a, t);
    if a.Commit? && a.t == t && t in s.retirements && s.retirements[t].pc.Judged? {
      assert RetireOk(s, t) && ReadOk(s, t);
      VerdictIsTerminal(s, t);
    }
  }

  lemma UsedGrows(c: Config, s: State, a: Action)
    ensures s.used <= Apply(c, s, a).used
  {
    if !a.CreateTask? { UsedKept(c, s, a); }
  }

  lemma UsedKept(c: Config, s: State, a: Action)
    requires !a.CreateTask?
    ensures Apply(c, s, a).used == s.used
  {
    if OfAttempt(a) {
      AttemptKeepsUsed(c, s, a);
    }
  }

  lemma AttemptKeepsUsed(c: Config, s: State, a: Action)
    requires OfAttempt(a)
    ensures Apply(c, s, a).used == s.used
  {
  }

  lemma NotRecreated(c: Config, s: State, a: Action, t: TaskId)
    requires t in s.used && t !in s.db.tasks
    ensures t !in Apply(c, s, a).db.tasks
  {
    if !IsTableStep(a) {
      KeysKept(c, s, a);
    } else if a.Sweep? {
      SweepIsTame(s, a.cutoff, a.now);
    }
  }

  // --- histories ---

  /** Who may change the state of a task, from where, and to where. */
  ghost predicate Moves(s: State, a: Action, t: TaskId, before: TaskState, after: TaskState) {
    match a
    case Claim(_, _, _) => before == Queued && after == Dispatching
    case Activate(_, _, _) => before == Dispatching && after == Running
    case Settle(_, _, _) => before == Dispatching && (after == Queued || after == Failed || after == Lost)
    case Sweep(_, _) => before == Dispatching && after == Lost
    case Steer(_, _, _) => before.Live() && after.Live() && Allowed(before, after)
    case Commit(u, _, _) =>
      && u == t && t in s.retirements && s.retirements[t].pc.Judged?
      && s.retirements[t].pc.verdict == Some(after) && Allowed(before, after)
    case _ => false
  }

  lemma StateMoves(c: Config, s: State, a: Action, t: TaskId)
    requires t in s.db.tasks && t in Apply(c, s, a).db.tasks
    ensures var before, after := s.db.tasks[t].state, Apply(c, s, a).db.tasks[t].state;
            before == after || Moves(s, a, t, before, after)
  {
    if IsTableStep(a) {
      TableMoves(c, s, a, t);
    } else if a.Settle? {
    } else if a.Activate? {
    } else if a.Commit? {
    } else if a.Append? {
    } else {
      QuietDb(c, s, a);
    }
  }

  lemma TableMoves(c: Config, s: State, a: Action, t: TaskId)
    requires IsTableStep(a) && t in s.db.tasks && t in Apply(c, s, a).db.tasks
    ensures var before, after := s.db.tasks[t].state, Apply(c, s, a).db.tasks[t].state;
            before == after || Moves(s, a, t, before, after)
  {
    if a.Claim? {
      ClaimableRows(s.db, c.maxActive);
    } else if a.Sweep? {
      SweepIsTame(s, a.cutoff, a.now);
    }
  }

  /** The states one task passes through along a run, from its submission to its deletion. */
  function History(c: Config, s: State, actions: seq<Action>, t: TaskId): seq<TaskState>
    decreases |actions|
  {
    var here := if t in s.db.tasks then [s.db.tasks[t].state] else [];
    if actions == [] then here else here + History(c, Apply(c, s, actions[0]), actions[1..], t)
  }

  /** The history of every task is a path of the transition table. */
  lemma {:induction false} HistoryIsPath(c: Config, s: State, actions: seq<Action>, t: TaskId)
    requires s.db.tasks.Keys <= s.used
    ensures IsPath(History(c, s, actions, t))
    ensures t in s.db.tasks ==> History(c, s, actions, t) != [] && History(c, s, actions, t)[0] == s.db.tasks[t].state
    ensures t in s.used && t !in s.db.tasks ==> History(c, s, actions, t) == []
    decreases |actions|
  {
    if actions == [] {
    } else {
      var s' := Apply(c, s, actions[0]);
      UsedGrows(c, s, actions[0]);
      UsedCovers(c, s, actions[0]);
      HistoryIsPath(c, s', actions[1..], t);
      if t in s.db.tasks {
        if t in s'.db.tasks {
          StateMoves(c, s, actions[0], t);
          MovesLegal(s, actions[0], t, s.db.tasks[t].state, s'.db.tasks[t].state);
        }
        var rest := History(c, s', actions[1..], t);
        assert History(c, s, actions, t) == [s.db.tasks[t].state] + rest;
        PathCons(s.db.tasks[t].state, rest);
      } else if t in s.used {
        NotRecreated(c, s, actions[0], t);
      }
    }
  }

  lemma MovesLegal(s: State, a: Action, t: TaskId, before: TaskState, after: TaskState)
    requires before == after || Moves(s, a, t, before, after)
    ensures Legal(before, after)
  {
  }

  lemma PathCons(state: TaskState, rest: seq<TaskState>)
    requires IsPath(rest) && (rest != [] ==> Legal(state, rest[0]))
    ensures IsPath([state] + rest)
  {
    var path := [state] + rest;
    forall i | 0 <= i < |path| - 1 ensures Legal(path[i], path[i + 1]) {
      if i > 0 { assert path[i] == rest[i - 1] && Legal(rest[i - 1], rest[i - 1 + 1]); }
    }
  }

  lemma UsedCovers(c: Config, s: State, a: Action)
    requires s.db.tasks.Keys <= s.used
    ensures Apply(c, s, a).db.tasks.Keys <= Apply(c, s, a).used
  {
    if IsTableStep(a) {
      TableUsed(c, s, a);
    } else {
      UsedGrows(c, s, a);
      KeysKept(c, s, a);
    }
  }

  lemma KeysKept(c: Config, s: State, a: Action)
    requires !IsTableStep(a)
    ensures Apply(c, s, a).db.tasks.Keys == s.db.tasks.Keys
  {
    if a.Settle? {
    } else if a.Activate? {
    } else if a.Commit? {
    } else if !a.Append? {
      QuietDb(c, s, a);
    }
  }

  lemma TableUsed(c: Config, s: State, a: Action)
    requires IsTableStep(a) && s.db.tasks.Keys <= s.used
    ensures Apply(c, s, a).db.tasks.Keys <= Apply(c, s, a).used
  {
    if a.Sweep? { SweepIsTame(s, a.cutoff, a.now); }
  }

  /**
   * DONE, FAILED and CANCELLED are never left.  LOST is left exactly by the commit of
   * a retirement that had read the task before it was lost, and only for FAILED or
   * CANCELLED; such a retirement never saw the task live.
   */
  lemma TerminalLeftOnlyFromLost(c: Config, s: State, a: Action, t: TaskId)
    requires Inv(c, s) && t in s.db.tasks && s.db.tasks[t].state.Terminal() && t in Apply(c, s, a).db.tasks
    ensures Apply(c, s, a).db.tasks[t].state != s.db.tasks[t].state <==>
      && s.db.tasks[t].state == Lost && a.Commit? && a.t == t && (a.storeOk || !c.faults)
      && t in s.retirements && s.retirements[t].pc.Judged?
      && (s.retirements[t].pc.verdict == Some(Failed) || s.retirements[t].pc.verdict == Some(Cancelled))
    ensures Apply(c, s, a).db.tasks[t].state != s.db.tasks[t].state ==>
      && (Apply(c, s, a).db.tasks[t].state == Failed || Apply(c, s, a).db.tasks[t].state == Cancelled)
      && !s.retirements[t].pc.task.state.Terminal() && !s.retirements[t].pc.task.state.Live()
  {
    if a.Commit? && a.t == t {
      OverCommit(c, s, t, a.now, a.storeOk);
    } else {
      StateMoves(c, s, a, t);
    }
  }

  lemma OverCommit(c: Config, s: State, t: TaskId, now: int, storeOk: bool)
    requires Retires(s) && Reads(s) && t in s.db.tasks && s.db.tasks[t].state.Terminal()
    ensures var s' := DoCommit(c, s, t, now, storeOk);
      && t in s'.db.tasks
      && (s'.db.tasks[t].state != s.db.tasks[t].state <==>
          && s.db.tasks[t].state == Lost && (storeOk || !c.faults)
          && t in s.retirements && s.retirements[t].pc.Judged?
          && (s.retirements[t].pc.verdict == Some(Failed) || s.retirements[t].pc.verdict == Some(Cancelled)))
      && (s'.db.tasks[t].state != s.db.tasks[t].state ==>
          && (s'.db.tasks[t].state == Failed || s'.db.tasks[t].state == Cancelled)
          && !s.retirements[t].pc.task.state.Terminal() && !s.retirements[t].pc.task.state.Live())
  {
    if t in s.retirements && s.retirements[t].pc.Judged? {
      assert RetireOk(s, t) && ReadOk(s, t);
      CommitOfOver(c, s, t, now, storeOk);
      if s.retirements[t].pc.verdict.Some? {
        VerdictIsTerminal(s, t);
        CommitMovesTo(c, s, t, now, storeOk);
      }
    }
  }

  /** A retirement that will write at all writes a terminal state, over a read that was not terminal. */
  lemma VerdictIsTerminal(s: State, t: TaskId)
    requires t in s.retirements && RetireOk(s, t) && ReadOk(s, t) && s.retirements[t].pc.Judged?
    ensures s.retirements[t].pc.verdict.Some? <==> !s.retirements[t].pc.task.state.Terminal()
    ensures s.retirements[t].pc.verdict.Some? ==> s.retirements[t].pc.verdict.value.Terminal()
  {
  }

  lemma CommitOfOver(c: Config, s: State, t: TaskId, now: int, storeOk: bool)
    requires t in s.db.tasks && s.db.tasks[t].state.Terminal()
    requires t in s.retirements && RetireOk(s, t) && ReadOk(s, t)
    ensures var s' := DoCommit(c, s, t, now, storeOk);
      && t in s'.db.tasks
      && (s'.db.tasks[t].state != s.db.tasks[t].state <==>
          && s.db.tasks[t].state == Lost && (storeOk || !c.faults)
          && s.retirements[t].pc.Judged?
          && (s.retirements[t].pc.verdict == Some(Failed) || s.retirements[t].pc.verdict == Some(Cancelled)))
  {
    var pc := s.retirements[t].pc;
    if pc.Judged? && pc.verdict.Some? {
      VerdictIsTerminal(s, t);
      assert !s.db.tasks[t].state.Done? && !s.db.tasks[t].state.Cancelled?;
      CommitMovesTo(c, s, t, now, storeOk);
    }
  }

  lemma CommitMovesTo(c: Config, s: State, t: TaskId, now: int, storeOk: bool)
    requires t in s.db.tasks && t in s.retirements && s.retirements[t].pc.Judged? && s.retirements[t].pc.verdict.Some?
    ensures var s' := DoCommit(c, s, t, now, storeOk);
            var verdict := s.retirements[t].pc.verdict.value;
      && t in s'.db.tasks
      && s'.db.tasks[t].state ==
           (if Legal(s.db.tasks[t].state, verdict) && (storeOk || !c.faults) then verdict else s.db.tasks[t].state)
  {
  }

  // --- retirement ---

  /**
   * Whatever it read, a judged retirement that finds its task live commits its verdict;
   * the task's row closes exactly if it is the one the retirement names.
   */
  lemma CommitOnLive(c: Config, s: State, t: TaskId, now: int)
    requires Inv(c, s) && t in s.retirements && s.retirements[t].pc.Judged? && IsLive(s.db, t)
    ensures var s' := DoCommit(c, s, t, now, true);
      && s.retirements[t].pc.verdict.Some?
      && StateIs(s'.db, t, s.retirements[t].pc.verdict.value)
      && s'.retirements[t].pc.Retired?
      && t in s.owner && ActiveOf(s.db, t) == {s.owner[t]}
      && (ActiveOf(s'.db, t) == {} <==> s.retirements[t].worker == Some(s.owner[t]))
  {
    assert RetireOk(s, t) && ReadOk(s, t);
    ActiveIsOwner(c, s, t);
    LiveCommitLands(c, s, t, now);
    CommitCloses(c, s, t, now);
  }

  /** A retirement that read its task live finds it live, or deleted, whatever came between. */
  lemma LiveReadStaysLive(c: Config, s: State, t: TaskId)
    requires Inv(c, s)
    requires t in s.retirements && s.retirements[t].pc.Uncommitted() && s.retirements[t].pc.task.state.Live()
    ensures t !in s.db.tasks || IsLive(s.db, t)
  {
    assert ReadOk(s, t);
  }

  lemma LiveCommitLands(c: Config, s: State, t: TaskId, now: int)
    requires t in s.retirements && RetireOk(s, t) && ReadOk(s, t)
    requires s.retirements[t].pc.Judged? && IsLive(s.db, t)
    ensures var s' := DoCommit(c, s, t, now, true);
      && s.retirements[t].pc.verdict.Some?
      && StateIs(s'.db, t, s.retirements[t].pc.verdict.value)
      && s'.retirements[t].pc.Retired? && CommitShape(s, t, s')
  {
    VerdictIsTerminal(s, t);
    LegalCommitLands(c, s, t, now);
    CommitHasShape(c, s, t, now, true);
  }

  lemma LegalCommitLands(c: Config, s: State, t: TaskId, now: int)
    requires t in s.db.tasks && t in s.retirements && s.retirements[t].pc.Judged? && s.retirements[t].pc.verdict.Some?
    requires Legal(s.db.tasks[t].state, s.retirements[t].pc.verdict.value)
    ensures var s' := DoCommit(c, s, t, now, true);
      StateIs(s'.db, t, s.retirements[t].pc.verdict.value) && s'.retirements[t].pc.Retired?
  {
    CommitMovesTo(c, s, t, now, true);
  }

  /** The commit ends the named row and no other: the task's row closes iff it is the one named. */
  lemma CommitCloses(c: Config, s: State, t: TaskId, now: int)
    requires IsLive(s.db, t) && t in s.owner && ActiveOf(s.db, t) == {s.owner[t]}
    requires CommitShape(s, t, DoCommit(c, s, t, now, true))
    ensures ActiveOf(DoCommit(c, s, t, now, true).db, t) == {} <==> s.retirements[t].worker == Some(s.owner[t])
  {
    var s' := DoCommit(c, s, t, now, true);
    var w := s.owner[t];
    assert w in ActiveOf(s.db, t);
    if s.retirements[t].worker == Some(w) {
      forall x | x in ActiveOf(s'.db, t) ensures x in ActiveOf(s.db, t) && x != w {
      }
    } else {
      assert w in ActiveOf(s'.db, t);
    }
  }

  /**
   * Without store faults a retirement of a live task always names the row that is
   * active, so its commit leaves the task with no open worker.
   */
  lemma RetirementNamesActiveWorker(c: Config, s: State, t: TaskId)
    requires Inv(c, s) && !c.faults && t in s.retirements && IsLive(s.db, t)
    ensures s.retirements[t].worker == Some(s.owner[t])
  {
    var r := s.retirements[t];
    assert RetireOk(s, t) && StandingOk(s, t);
    if r.worker.Some? { assert AttemptOk(c, s, r.worker.value); }
  }

  /**
   * The write that marks a task STUCK names PAUSED among its expected states, but the
   * transition table has no such edge: it raises exactly on a paused task.
   */
  lemma MarkStuckRaisesExactlyWhenPaused(db: Db, t: TaskId, now: int)
    ensures SetTaskState(db, t, MarkStuck.Target(), Some(MarkStuck.Expected()), now).Raised? <==> StateIs(db, t, Paused)
  {
  }

  /**
   * Called without a target, `retire` would end the worker row alone.  That strands a
   * task, live without a worker, exactly if the task is live and has no other open row.
   */
  lemma MissingTargetStrandsTask(db: Db, t: TaskId, w: WorkerId, now: int)
    ensures IsLive(EndWorker(db, w, now), t) && ActiveOf(EndWorker(db, w, now), t) == {} <==>
      IsLive(db, t) && ActiveOf(db, t) <= {w}
  {
    var db' := EndWorker(db, w, now);
    assert ActiveOf(db', t) == ActiveOf(db, t) - {w};
  }

  // --- the evaluator gate ---

  /**
   * A gated task is DONE only with exactly one evaluation on record, a passing one; an
   * ungated one is DONE with none.  No task ever has two, whatever was pruned since.
   */
  lemma DoneMeansPassed(c: Config, actions: seq<Action>, t: TaskId)
    requires StateIs(Reached(c, actions).db, t, Done)
    ensures var db := Reached(c, actions).db;
            Evaluations(db.log, t) == if db.tasks[t].gated then [true] else []
  {
    ReachedInv(c, actions);
    assert EvaluationOk(Reached(c, actions), t);
  }

  /** The verdict and its evaluation enter the database in the same transaction. */
  lemma EvaluationCommitsWithState(c: Config, s: State, a: Action, t: TaskId)
    requires Inv(c, s) && StateIs(Apply(c, s, a).db, t, Done) && !StateIs(s.db, t, Done)
    requires t in s.db.tasks
    ensures a.Commit? && a.t == t && Evaluations(s.db.log, t) == []
    ensures Evaluations(Apply(c, s, a).db.log, t) == if s.db.tasks[t].gated then [true] else []
  {
    StepKeepsInv(c, s, a);
    assert EvaluationOk(Apply(c, s, a), t) && EvaluationOk(s, t);
    StateMoves(c, s, a, t);
    assert RetireOk(s, t) && ReadOk(s, t);
    VerdictIsTerminal(s, t);
    GatedKept(c, s, t, a.now, a.storeOk);
  }

  lemma GatedKept(c: Config, s: State, t: TaskId, now: int, storeOk: bool)
    requires t in s.db.tasks
    ensures var s' := DoCommit(c, s, t, now, storeOk); t in s'.db.tasks && s'.db.tasks[t].gated == s.db.tasks[t].gated
  {
  }

  // --- a finished tick ---

  /** The condition under which `tick` returns: each task it claimed has run to an outcome. */
  ghost predicate TickOver(s: State, k: TickId) {
    k in s.started && forall w :: w in s.attempts && s.attempts[w].tick == k ==> s.attempts[w].pc.Finished?
  }

  /**
   * When a tick is over its counter is the number of activations, every lease one of its
   * attempts took is on an activated worker row or was given back, and (store writes
   * permitting) no task is still reserved by it.
   */
  lemma TickAccounts(c: Config, actions: seq<Action>, k: TickId, w: WorkerId)
    requires TickOver(Reached(c, actions), k)
    requires w in Reached(c, actions).attempts && Reached(c, actions).attempts[w].tick == k
    ensures var s := Reached(c, actions);
      && s.started[k] == |ActivatedBy(s, k)|
      && (s.attempts[w].pc != Finished(Activated) ==> forall u :: u in s.held ==> s.held[u] != w)
      && (StateIs(s.db, s.attempts[w].task, Dispatching) ==>
            s.attempts[w].task in s.owner
            && (s.owner[s.attempts[w].task] == w ==> s.attempts[w].pc == Finished(Unsettled)))
      && (s.attempts[w].pc == Finished(Unsettled) ==> c.faults || c.restarts)
  {
    var s := Reached(c, actions);
    ReachedInv(c, actions);
    if s.attempts[w].pc != Finished(Activated) { LeaseGoesOn(s, w); }
    assert AttemptOk(c, s, w);
    if StateIs(s.db, s.attempts[w].task, Dispatching) { StillReservedBy(s, w); }
  }

  lemma LeaseGoesOn(s: State, w: WorkerId)
    requires HeldOk(s) && w in s.attempts && s.attempts[w].pc.Finished? && s.attempts[w].pc != Finished(Activated)
    ensures forall u :: u in s.held ==> s.held[u] != w
  {
  }

  lemma StillReservedBy(s: State, w: WorkerId)
    requires Standings(s) && w in s.attempts && s.attempts[w].pc.Finished?
    requires StateIs(s.db, s.attempts[w].task, Dispatching)
    ensures s.attempts[w].task in s.owner
    ensures s.owner[s.attempts[w].task] == w ==> s.attempts[w].pc == Finished(Unsettled)
  {
    assert StandingOk(s, s.attempts[w].task);
    var o := s.attempts[w].pc.outcome;
    assert s.attempts[w].pc == Finished(o) && (o == Activated || o == Compensated || o == Unsettled);
  }
}
