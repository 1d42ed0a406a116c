/** How the attempts of one scheduler tick move, under its own steps and everybody else's. */
module TickSteps {
  import opened Basics
  import opened Tables
  import opened Queueing
  import opened Protocol
  import opened Invariant
  import opened Preservation
  import opened Theorems

  /** A step taken by somebody other than tick `k`. */
  predicate ForeignToTick(s: State, k: TickId, a: Action) {
    && !a.Restart?
    && (a.Claim? ==> a.k != k)
    && (OfAttempt(a) && a.w in s.attempts ==> s.attempts[a.w].tick != k)
  }

  /** The attempts of one tick, as they stand. */
  function Mine(s: State, k: TickId): map<WorkerId, Attempt> {
    map w | w in s.attempts && s.attempts[w].tick == k :: s.attempts[w]
  }

  /** Nothing but entry `w` of the table may have changed. */
  ghost predicate OnlyMoved(before: map<WorkerId, Attempt>, after: map<WorkerId, Attempt>, w: WorkerId) {
    && after.Keys == before.Keys
    && (forall x :: x in before && x != w ==> after[x] == before[x])
    && (w in before ==> SameClaim(before[w], after[w]))
  }

  /** The same claim, perhaps further on. */
  predicate SameClaim(before: Attempt, after: Attempt) {
    && after.task == before.task && after.need == before.need && after.tick == before.tick
    && (before.known ==> after.known)
  }

  lemma AttemptOnlyMoves(c: Config, s: State, a: Action)
    requires OfAttempt(a)
    ensures OnlyMoved(s.attempts, Apply(c, s, a).attempts, a.w)
  {
    AttemptShape(c, s, a);
  }

  lemma MineOnlyMoves(s: State, s': State, k: TickId, w: WorkerId)
    requires OnlyMoved(s.attempts, s'.attempts, w)
    ensures OnlyMoved(Mine(s, k), Mine(s', k), w)
    ensures w !in Mine(s, k) ==> Mine(s', k) == Mine(s, k)
  {
  }

  lemma ForeignKeepsMine(c: Config, s: State, k: TickId, a: Action)
    requires ForeignToTick(s, k, a) && k in s.started
    ensures Mine(Apply(c, s, a), k) == Mine(s, k)
    ensures k in Apply(c, s, a).started
  {
    if a.Claim? {
      ClaimKeepsMine(c, s, k, a.k, a.ids, a.now);
    } else if OfAttempt(a) {
      AttemptOnlyMoves(c, s, a);
      MineOnlyMoves(s, Apply(c, s, a), k, a.w);
      StartedKept(c, s, k, a);
    } else {
      OtherFrame(c, s, a);
      StartedKept(c, s, k, a);
    }
  }

  lemma ClaimKeepsMine(c: Config, s: State, k: TickId, other: TickId, ids: map<TaskId, WorkerId>, now: int)
    requires k in s.started && other != k
    ensures Mine(DoClaim(c, s, other, ids, now), k) == Mine(s, k)
    ensures k in DoClaim(c, s, other, ids, now).started
  {
    var s' := DoClaim(c, s, other, ids, now);
    ClaimCases(c, s, other, ids, now);
    if s' != s {
      var taken := Elements(Claimable(s.db, c.maxActive));
      ClaimHasShape(c, s, taken, other, ids, now, s');
      ShapeKeepsMine(s, taken, other, s', k);
    }
  }

  lemma ShapeKeepsMine(s: State, taken: set<TaskId>, other: TickId, s': State, k: TickId)
    requires ClaimShape(s, taken, other, s') && other != k
    ensures Mine(s', k) == Mine(s, k) && (k in s.started ==> k in s'.started)
  {
  }

  lemma AttemptKeys(c: Config, s: State, a: Action)
    requires OfAttempt(a)
    ensures Apply(c, s, a).attempts.Keys == s.attempts.Keys
    ensures a.w in s.attempts ==> Apply(c, s, a).attempts[a.w].tick == s.attempts[a.w].tick
  {
    AttemptShape(c, s, a);
  }

  lemma StartedKept(c: Config, s: State, k: TickId, a: Action)
    requires k in s.started && !a.Claim?
    ensures k in Apply(c, s, a).started
  {
    if !a.Activate? { StartedSame(c, s, a); }
  }

  lemma StartedSame(c: Config, s: State, a: Action)
    requires !a.Claim? && !a.Activate?
    ensures Apply(c, s, a).started == s.started
  {
    if OfAttempt(a) { AttemptShape(c, s, a); }
  }

  /** Which attempts of a tick are still to be prepared, ready, or already compensated. */
  ghost predicate Preparing(m: map<WorkerId, Attempt>, unprepared: set<WorkerId>, prepared: set<WorkerId>) {
    && unprepared <= m.Keys && prepared <= m.Keys && unprepared !! prepared
    && forall w :: w in m ==>
         if w in unprepared then m[w].pc == Claimed
         else if w in prepared then m[w].pc.Leased?
         else m[w].pc.Finished? && m[w].pc != Finished(Activated)
  }

  lemma PreparedOne(
      m: map<WorkerId, Attempt>, m': map<WorkerId, Attempt>, unprepared: set<WorkerId>,
      prepared: set<WorkerId>, w: WorkerId, ready: bool)
    requires Preparing(m, unprepared, prepared) && w in unprepared && OnlyMoved(m, m', w)
    requires if ready then m'[w].pc.Leased? else m'[w].pc.Finished? && m'[w].pc != Finished(Activated)
    ensures Preparing(m', unprepared - {w}, if ready then prepared + {w} else prepared)
  {
  }

  /** Which starts have not begun, which are in the pool, and which were activated. */
  ghost predicate Pooling(
      m: map<WorkerId, Attempt>, waiting: set<WorkerId>, running: set<WorkerId>, activated: set<WorkerId>) {
    && waiting <= m.Keys && running <= m.Keys && waiting !! running
    && activated <= m.Keys && activated !! waiting && activated !! running
    && forall w :: w in m ==>
         if w in waiting then m[w].pc.Leased?
         else if w in running then m[w].pc.Started? || m[w].pc.Cleaning?
         else m[w].pc.Finished? && (w in activated <==> m[w].pc == Finished(Activated))
  }

  lemma PoolLaunched(
      m: map<WorkerId, Attempt>, m': map<WorkerId, Attempt>, waiting: set<WorkerId>, running: set<WorkerId>,
      activated: set<WorkerId>, w: WorkerId)
    requires Pooling(m, waiting, running, activated) && w in waiting && OnlyMoved(m, m', w)
    requires m'[w].pc.Started? || m'[w].pc.Cleaning?
    ensures Pooling(m', waiting - {w}, running + {w}, activated)
  {
  }

  lemma PoolCompleted(
      m: map<WorkerId, Attempt>, m': map<WorkerId, Attempt>, waiting: set<WorkerId>, running: set<WorkerId>,
      activated: set<WorkerId>, w: WorkerId, ok: bool)
    requires Pooling(m, waiting, running, activated) && w in running && OnlyMoved(m, m', w)
    requires m'[w].pc.Finished? && (ok <==> m'[w].pc == Finished(Activated))
    ensures Pooling(m', waiting, running - {w}, if ok then activated + {w} else activated)
  {
  }

  predicate NeedsGpu(need: Option<Lease>) {
    need.Some? && need.value.GpuLease?
  }

  /** How an attempt's own action moves it. */
  predicate Stepped(before: Pc, need: Option<Lease>, a: Action, after: Pc)
    requires OfAttempt(a)
  {
    match a
    case PrepareFails(_, retryable) => before.Claimed? ==> after == Settling(false, retryable)
    case PrepareOk(_) => before.Claimed? ==> after.Leased? || (after.Claimed? && NeedsGpu(need))
    case StartFails(_, retryable) => before.Leased? ==> after == Cleaning(before.lease, false, false, retryable)
    case StartOk(_) => before.Leased? ==> after == Started(before.lease)
    case BuildFails(_, retryable) => before.Started? ==> after == Failing(before.lease, false, retryable)
    case Register(_) => before.Started? ==> after == Registered(before.lease)
    case Activate(_, _, _) => before.Registered? ==>
        after == Finished(Activated) || after == Failing(before.lease, true, true)
    case StopStarted(_, ok) => before.Failing? ==>
        after == Cleaning(before.lease, before.registered, !ok, before.retryable)
    case Unregister(_) => before.Cleaning? && before.registered ==> after == before.(registered := false)
    case ReleaseLease(_) => before.Cleaning? && !before.registered ==>
        after == Settling(before.stopFailed, before.retryable)
    case Settle(_, _, _) => before.Settling? ==> after == Finished(Compensated) || after == Finished(Unsettled)
    case _ => true
  }

  // --- the order of an attempt's own steps ---

  datatype Mark = Prepares | Starts | Builds | Registers | Activates | Stops | Unregisters | Releases | Settles

  function MarkOf(a: Action): Mark
    requires OfAttempt(a)
  {
    match a
    case PrepareFails(_, _) => Prepares
    case PrepareOk(_) => Prepares
    case StartFails(_, _) => Starts
    case StartOk(_) => Starts
    case BuildFails(_, _) => Builds
    case Register(_) => Registers
    case Activate(_, _, _) => Activates
    case StopStarted(_, _) => Stops
    case Unregister(_) => Unregisters
    case ReleaseLease(_) => Releases
    case Settle(_, _, _) => Settles
  }

  /** What attempt `w` itself has done along a run, in order. */
  function Marks(trace: seq<Action>, w: WorkerId): seq<Mark> {
    if trace == [] then []
    else
      var before, a := Marks(trace[..|trace| - 1], w), trace[|trace| - 1];
      if OfAttempt(a) && a.w == w then before + [MarkOf(a)] else before
  }

  lemma MarksSnoc(trace: seq<Action>, a: Action, w: WorkerId)
    ensures Marks(trace + [a], w) == Marks(trace, w) + if OfAttempt(a) && a.w == w then [MarkOf(a)] else []
  {
    assert (trace + [a])[..|trace|] == trace;
  }

  lemma ForeignMarks(s: State, k: TickId, trace: seq<Action>, a: Action, w: WorkerId)
    requires ForeignToTick(s, k, a)
    ensures w in Mine(s, k) ==> Marks(trace + [a], w) == Marks(trace, w)
  {
    MarksSnoc(trace, a, w);
  }

  /** The order in which what an attempt has registered and leased is given back. */
  function CleanMarks(registered: bool): seq<Mark> {
    if registered then [Unregisters, Releases] else [Releases]
  }

  /** The order in which a failed attempt is undone. */
  function UndoMarks(pc: Pc): seq<Mark> {
    match pc
    case Failing(_, registered, _) => [Stops] + CleanMarks(registered) + [Settles]
    case Cleaning(_, registered, _, _) => CleanMarks(registered) + [Settles]
    case _ => [Settles]
  }

  lemma InOrder3(before: seq<Mark>, a: seq<Mark>, b: seq<Mark>, c: seq<Mark>)
    ensures (before + a) + (b + c) == before + (a + b + c)
  {
  }

  /** The order of steps in which one finished start is activated, or undone. */
  predicate CompletionMarks(pc: Pc, activated: bool, own: seq<Mark>) {
    if activated then own == [Registers, Activates]
    else if pc.Started? then
      || own == [Registers, Activates, Stops, Unregisters, Releases, Settles]
      || own == [Builds, Stops, Releases, Settles]
    else own == UndoMarks(pc)
  }

  /** A start that got as far as `failing` by the steps `own`, and was then undone. */
  lemma UndoneAfter(pc: Pc, failing: Pc, before: seq<Mark>, own: seq<Mark>, after: seq<Mark>)
    requires pc.Started? && failing.Failing? && own == if failing.registered then [Registers, Activates] else [Builds]
    requires after == (before + own) + UndoMarks(failing)
    ensures before <= after && CompletionMarks(pc, false, after[|before|..])
  {
    assert after[|before|..] == own + UndoMarks(failing);
  }

  lemma OwnStepped(c: Config, s: State, a: Action)
    requires OfAttempt(a) && a.w in s.attempts
    ensures a.w in Apply(c, s, a).attempts
    ensures Stepped(s.attempts[a.w].pc, s.attempts[a.w].need, a, Apply(c, s, a).attempts[a.w].pc)
  {
    AttemptKeys(c, s, a);
    if IsLaunchStep(a) {
      LaunchStepped(c, s, a);
    } else if IsRegisterStep(a) {
      RegisterStepped(c, s, a);
    }
  }

  lemma LaunchStepped(c: Config, s: State, a: Action)
    requires IsLaunchStep(a) && a.w in s.attempts && a.w in Apply(c, s, a).attempts
    ensures Stepped(s.attempts[a.w].pc, s.attempts[a.w].need, a, Apply(c, s, a).attempts[a.w].pc)
  {
  }

  lemma RegisterStepped(c: Config, s: State, a: Action)
    requires IsRegisterStep(a) && a.w in s.attempts && a.w in Apply(c, s, a).attempts
    ensures Stepped(s.attempts[a.w].pc, s.attempts[a.w].need, a, Apply(c, s, a).attempts[a.w].pc)
  {
  }

  // --- what adapters, runtime and host answer ---

  /**
   * The answer to a claimed task's preparation: it resolves, its resource is in use
   * elsewhere, something broke, or its requirements are unfit.
   */
  datatype Resolution = Resolves | Busy | Breaks | Unfit

  /** All answers an attempt will get; `retryable` is that of a start, or of a worker row, that fails. */
  datatype Fortune = Fortune(resolution: Resolution, startOk: bool, rowOk: bool, retryable: bool)

  predicate Fit(f: Fortune) {
    f.resolution.Resolves? && f.startOk && f.rowOk
  }

  /** This attempt fails for good: its requirements are unfit, or its start or its row fails without hope. */
  predicate Doomed(f: Fortune, refused: bool) {
    f.resolution.Unfit? || (f.resolution.Resolves? && !refused && !(f.startOk && f.rowOk) && !f.retryable)
  }

  /** After these actions the claimed attempt finds the GPU it needs in use. */
  ghost predicate FindsGpuInUse(c: Config, actions: seq<Action>, w: WorkerId) {
    MustWait(Reached(c, actions), w)
  }

  predicate MustWait(s: State, w: WorkerId) {
    && w in s.attempts && s.attempts[w].pc.Claimed?
    && NeedsGpu(s.attempts[w].need) && s.attempts[w].need.value.uuid in s.held
  }

  /** Asking for a lease fails only so. */
  lemma AskedInVain(c: Config, s: State, w: WorkerId)
    requires w in s.attempts && s.attempts[w].pc.Claimed?
    ensures var s' := Apply(c, s, PrepareOk(w));
      w in s'.attempts && (s'.attempts[w].pc.Leased? || MustWait(s', w))
  {
    assert Apply(c, s, PrepareOk(w)) == DoPrepareOk(s, w);
  }

  /** It found it so at some moment. */
  ghost predicate WasRefused(c: Config, trace: seq<Action>, w: WorkerId) {
    exists i :: 0 <= i <= |trace| && FindsGpuInUse(c, trace[..i], w)
  }

  lemma RefusedStays(c: Config, trace: seq<Action>, longer: seq<Action>, w: WorkerId)
    requires trace <= longer && WasRefused(c, trace, w)
    ensures WasRefused(c, longer, w)
  {
    var i :| 0 <= i <= |trace| && FindsGpuInUse(c, trace[..i], w);
    assert longer[..i] == trace[..i];
  }

  lemma RefusedNow(c: Config, trace: seq<Action>, w: WorkerId)
    requires FindsGpuInUse(c, trace, w)
    ensures WasRefused(c, trace, w)
  {
    assert trace[..|trace|] == trace;
  }

  /**
   * What an attempt has come to, as against what it was answered.  It is activated only
   * with every answer right; with every answer right it is activated unless it found the
   * GPU it needs in use or its task was taken away and is over; and a task whose attempt
   * failed for good is never dispatched again.
   */
  ghost predicate Fated(c: Config, s: State, trace: seq<Action>, w: WorkerId, f: Fortune) {
    && w in s.attempts && s.attempts[w].pc.Finished?
    && (s.attempts[w].pc == Finished(Activated) ==> Fit(f))
    && (Fit(f) && !WasRefused(c, trace, w) && !c.faults ==>
          s.attempts[w].pc == Finished(Activated) || Gone(s, s.attempts[w].task))
    && (Doomed(f, WasRefused(c, trace, w)) ==> Shut(s, w))
  }

  /** An attempt on its way has had the answers that brought it there. */
  ghost predicate OnCourse(c: Config, s: State, trace: seq<Action>, w: WorkerId, f: Fortune) {
    w in s.attempts &&
    match s.attempts[w].pc
    case Leased(_) => f.resolution.Resolves?
    case Started(_) => f.resolution.Resolves? && f.startOk
    case Cleaning(_, _, _, _) => f.resolution.Resolves? && !f.startOk && (!f.retryable ==> Shut(s, w))
    case Finished(_) => Fated(c, s, trace, w, f)
    case _ => true
  }

  ghost predicate AllOnCourse(c: Config, s: State, trace: seq<Action>, k: TickId, fortune: WorkerId -> Fortune) {
    forall w :: w in Mine(s, k) ==> OnCourse(c, s, trace, w, fortune(w))
  }

  predicate Undone(pc: Pc) {
    pc == Finished(Compensated) || pc == Finished(Unsettled)
  }

  /** A start whose activation failed: its task is over, or the store failed, or its row could not be built. */
  ghost predicate FailedStart(c: Config, s: State, w: WorkerId, f: Fortune) {
    && w in s.attempts && f.resolution.Resolves? && f.startOk
    && (f.rowOk && !c.faults ==> Gone(s, s.attempts[w].task))
    && (!f.rowOk && !f.retryable ==> Shut(s, w))
  }

  /** What lasts through any steps but a restart: a task that is over, an attempt that is shut or finished. */
  ghost predicate Enduring(s: State, s': State) {
    && (forall w :: Shut(s, w) ==> Shut(s', w))
    && (forall t :: t in s.used && Gone(s, t) ==> t in s'.used && Gone(s', t))
    && (forall w :: w in s.attempts ==> w in s'.attempts && s'.attempts[w].task == s.attempts[w].task)
    && (forall w :: w in s.attempts && s.attempts[w].pc.Finished? ==> s'.attempts[w] == s.attempts[w])
    && s.used <= s'.used
  }

  lemma StepEndures(c: Config, s: State, a: Action)
    requires Inv(c, s)
    ensures Enduring(s, Apply(c, s, a))
  {
    var s' := Apply(c, s, a);
    UsedGrows(c, s, a);
    forall w | Shut(s, w) ensures Shut(s', w) {
      ShutStep(c, s, a, w);
    }
    forall t | t in s.used && Gone(s, t) ensures t in s'.used && Gone(s', t) {
      GoneForever(c, s, a, t);
    }
    forall w | w in s.attempts
      ensures w in s'.attempts && s'.attempts[w].task == s.attempts[w].task
      ensures s.attempts[w].pc.Finished? ==> s'.attempts[w] == s.attempts[w]
    {
      if s.attempts[w].pc.Finished? { FinishedStays(c, s, a, w); }
      TaskStays(c, s, a, w);
    }
  }

  lemma TaskStays(c: Config, s: State, a: Action, w: WorkerId)
    requires w in s.attempts
    ensures w in Apply(c, s, a).attempts && Apply(c, s, a).attempts[w].task == s.attempts[w].task
  {
    if a.Claim? {
      ClaimFrame(c, s, a.k, a.ids, a.now, w);
    } else if OfAttempt(a) {
      OwnTaskStays(c, s, a, w);
    } else if !a.Restart? {
      OtherFrame(c, s, a);
    }
  }

  lemma OwnTaskStays(c: Config, s: State, a: Action, w: WorkerId)
    requires w in s.attempts && OfAttempt(a)
    ensures w in Apply(c, s, a).attempts && Apply(c, s, a).attempts[w].task == s.attempts[w].task
  {
    AttemptShape(c, s, a);
  }

  /** A tick's view of one of its own attempts moving, among everything else. */
  ghost predicate Progress(s: State, s': State, k: TickId, w: WorkerId) {
    k in s'.started && OnlyMoved(Mine(s, k), Mine(s', k), w) && Enduring(s, s')
  }

  /** The attempts that have not moved are still on course. */
  lemma OthersOnCourse(
      c: Config, s: State, trace: seq<Action>, s': State, trace': seq<Action>,
      k: TickId, w: WorkerId, fortune: WorkerId -> Fortune)
    requires UsedOk(s) && AllOnCourse(c, s, trace, k, fortune) && Progress(s, s', k, w) && trace <= trace'
    requires w in Mine(s', k) ==> OnCourse(c, s', trace', w, fortune(w))
    ensures AllOnCourse(c, s', trace', k, fortune)
  {
    forall x | x in Mine(s', k) ensures OnCourse(c, s', trace', x, fortune(x)) {
      if x != w {
        assert x in Mine(s, k) && Mine(s', k)[x] == Mine(s, k)[x];
        assert OnCourse(c, s, trace, x, fortune(x));
        CourseEndures(c, s, trace, s', trace', x, fortune(x));
      }
    }
  }

  lemma CourseEndures(
      c: Config, s: State, trace: seq<Action>, s': State, trace': seq<Action>, w: WorkerId, f: Fortune)
    requires UsedOk(s) && OnCourse(c, s, trace, w, f) && Enduring(s, s') && trace <= trace'
    requires w in s'.attempts && s'.attempts[w] == s.attempts[w]
    ensures OnCourse(c, s', trace', w, f)
  {
    assert s.attempts[w].task in s.used;
    if WasRefused(c, trace, w) { RefusedStays(c, trace, trace', w); }
  }

  lemma ClaimOpensTick(c: Config, s: State, k: TickId, ids: map<TaskId, WorkerId>, now: int)
    requires CountOk(s) && k !in s.started && FreshIds(s, Elements(Claimable(s.db, c.maxActive)), ids)
    ensures var s' := DoClaim(c, s, k, ids, now);
      k in s'.started && forall w :: w in Mine(s', k) ==> Mine(s', k)[w].pc == Claimed && w in s'.attempts
  {
    var s' := DoClaim(c, s, k, ids, now);
    ClaimCases(c, s, k, ids, now);
    ClaimHasShape(c, s, Elements(Claimable(s.db, c.maxActive)), k, ids, now, s');
  }

  // --- the tasks a tick takes on ---

  /** There is one attempt for each taken task, under the id drawn for it, and no other. */
  ghost predicate Took(mine: map<WorkerId, Attempt>, taken: set<TaskId>, ids: map<TaskId, WorkerId>) {
    && taken <= ids.Keys
    && (forall t :: t in taken ==> ids[t] in mine && mine[ids[t]].task == t)
    && (forall w :: w in mine ==> mine[w].task in taken && ids[mine[w].task] == w)
  }

  /** Whatever follows its claim, the attempts of a tick are those for exactly the tasks it claimed. */
  lemma TickTakesItsClaim(
      c: Config, actions: seq<Action>, k: TickId, ids: map<TaskId, WorkerId>, now: int, more: seq<Action>)
    requires k !in Reached(c, actions).started
    requires FreshIds(Reached(c, actions), Elements(Claimable(Reached(c, actions).db, c.maxActive)), ids)
    ensures var taken := Elements(Claimable(Reached(c, actions).db, c.maxActive));
      Took(Mine(Run(c, Apply(c, Reached(c, actions), Claim(k, ids, now)), more), k), taken, ids)
  {
    var s := Reached(c, actions);
    ReachedInv(c, actions);
    ClaimTakes(c, s, k, ids, now);
    RunKeepsTaken(c, Apply(c, s, Claim(k, ids, now)), more, k, Elements(Claimable(s.db, c.maxActive)), ids);
  }

  lemma TickTook(
      c: Config, actions: seq<Action>, k: TickId, ids: map<TaskId, WorkerId>, now: int, trace: seq<Action>)
    requires k !in Reached(c, actions).started && actions + [Claim(k, ids, now)] <= trace
    requires FreshIds(Reached(c, actions), Elements(Claimable(Reached(c, actions).db, c.maxActive)), ids)
    ensures Took(Mine(Reached(c, trace), k), Elements(Claimable(Reached(c, actions).db, c.maxActive)), ids)
  {
    var claimed := actions + [Claim(k, ids, now)];
    var more := trace[|claimed|..];
    TickTakesItsClaim(c, actions, k, ids, now, more);
    RunSnoc(c, Init(), actions, Claim(k, ids, now));
    assert trace == claimed + more;
    RunConcat(c, Init(), claimed, more);
  }

  lemma ClaimTakes(c: Config, s: State, k: TickId, ids: map<TaskId, WorkerId>, now: int)
    requires CountOk(s) && k !in s.started && FreshIds(s, Elements(Claimable(s.db, c.maxActive)), ids)
    ensures var s' := DoClaim(c, s, k, ids, now);
      k in s'.started && Took(Mine(s', k), Elements(Claimable(s.db, c.maxActive)), ids)
  {
    var taken := Elements(Claimable(s.db, c.maxActive));
    ClaimableRows(s.db, c.maxActive);
    NewAttemptsAre(s.db.tasks, k, taken, ids);
    var added := NewAttempts(s.db.tasks, k, taken, ids);
    MineAdded(s, DoClaim(c, s, k, ids, now), k, added);
  }

  lemma MineAdded(s: State, s': State, k: TickId, added: map<WorkerId, Attempt>)
    requires CountOk(s) && k !in s.started && s'.attempts == s.attempts + added
    requires forall w :: w in added ==> added[w].tick == k
    ensures Mine(s', k) == added
  {
  }

  lemma {:induction false} RunKeepsTaken(
      c: Config, s: State, more: seq<Action>, k: TickId, taken: set<TaskId>, ids: map<TaskId, WorkerId>)
    requires k in s.started && Took(Mine(s, k), taken, ids)
    ensures Took(Mine(Run(c, s, more), k), taken, ids)
    decreases |more|
  {
    if more == [] {
    } else {
      StepKeepsTaken(c, s, k, more[0], taken, ids);
      RunKeepsTaken(c, Apply(c, s, more[0]), more[1..], k, taken, ids);
    }
  }

  ghost predicate SameTasks(mine: map<WorkerId, Attempt>, mine': map<WorkerId, Attempt>) {
    mine'.Keys == mine.Keys && forall w :: w in mine ==> mine'[w].task == mine[w].task
  }

  lemma StepKeepsTaken(
      c: Config, s: State, k: TickId, a: Action, taken: set<TaskId>, ids: map<TaskId, WorkerId>)
    requires k in s.started && Took(Mine(s, k), taken, ids)
    ensures k in Apply(c, s, a).started && Took(Mine(Apply(c, s, a), k), taken, ids)
  {
    StepKeepsTasks(c, s, k, a);
    TookStays(Mine(s, k), Mine(Apply(c, s, a), k), taken, ids);
  }

  lemma TookStays(
      mine: map<WorkerId, Attempt>, mine': map<WorkerId, Attempt>, taken: set<TaskId>, ids: map<TaskId, WorkerId>)
    requires Took(mine, taken, ids) && SameTasks(mine, mine')
    ensures Took(mine', taken, ids)
  {
    assert forall w :: w in mine' ==> w in mine;
  }

  lemma StepKeepsTasks(c: Config, s: State, k: TickId, a: Action)
    requires k in s.started
    ensures k in Apply(c, s, a).started && SameTasks(Mine(s, k), Mine(Apply(c, s, a), k))
  {
    if a.Restart? {
      RestartMine(c, s, k);
    } else if a.Claim? && a.k == k {
      ClaimedBefore(c, s, k, a.ids, a.now);
    } else if OfAttempt(a) {
      AttemptKeepsTasks(c, s, k, a, Apply(c, s, a));
    } else {
      ForeignKeepsTasks(c, s, k, a, Apply(c, s, a));
    }
  }

  lemma ForeignKeepsTasks(c: Config, s: State, k: TickId, a: Action, s': State)
    requires ForeignToTick(s, k, a) && k in s.started && s' == Apply(c, s, a)
    ensures k in s'.started && SameTasks(Mine(s, k), Mine(s', k))
  {
    ForeignKeepsMine(c, s, k, a);
  }

  lemma AttemptKeepsTasks(c: Config, s: State, k: TickId, a: Action, s': State)
    requires OfAttempt(a) && k in s.started && s' == Apply(c, s, a)
    ensures k in s'.started && SameTasks(Mine(s, k), Mine(s', k))
  {
    AttemptOnlyMoves(c, s, a);
    MovedKeepsTasks(s, s', k, a.w);
    StartedKept(c, s, k, a);
  }

  lemma MovedKeepsTasks(s: State, s': State, k: TickId, w: WorkerId)
    ensures OnlyMoved(s.attempts, s'.attempts, w) ==> SameTasks(Mine(s, k), Mine(s', k))
  {
    if OnlyMoved(s.attempts, s'.attempts, w) {
      MineOnlyMoves(s, s', k, w);
    }
  }

  lemma ClaimedBefore(c: Config, s: State, k: TickId, ids: map<TaskId, WorkerId>, now: int)
    requires k in s.started
    ensures Apply(c, s, Claim(k, ids, now)) == s
  {
  }

  lemma RestartMine(c: Config, s: State, k: TickId)
    requires k in s.started
    ensures k in DoRestart(c, s).started && SameTasks(Mine(s, k), Mine(DoRestart(c, s), k))
  {
  }

  lemma MineIsOver(s: State, k: TickId, activated: set<WorkerId>)
    requires k in s.started && Pooling(Mine(s, k), {}, {}, activated)
    ensures TickOver(s, k) && activated == ActivatedBy(s, k)
  {
    forall w | w in s.attempts && s.attempts[w].tick == k ensures s.attempts[w].pc.Finished? {
      assert w in Mine(s, k);
    }
    assert forall w :: w in ActivatedBy(s, k) ==> w in Mine(s, k);
  }

  lemma MineIsFated(c: Config, s: State, trace: seq<Action>, k: TickId, fortune: WorkerId -> Fortune)
    requires TickOver(s, k) && AllOnCourse(c, s, trace, k, fortune)
    ensures forall w :: w in s.attempts && s.attempts[w].tick == k ==> Fated(c, s, trace, w, fortune(w))
  {
    forall w | w in s.attempts && s.attempts[w].tick == k ensures Fated(c, s, trace, w, fortune(w)) {
      assert w in Mine(s, k) && OnCourse(c, s, trace, w, fortune(w));
    }
  }
}
