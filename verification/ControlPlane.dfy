/**
 * The scheduler's `tick` and the actuator's `retire` as programs over the protocol
 * state.  Between any two of their own steps the rest of the system may take any
 * number of steps; `trace` records all of them, so whatever a method leaves behind is
 * a state of a run and everything in `Theorems` applies to it.
 */
module ControlPlaneModel {
  import opened Basics
  import opened Lifecycle
  import opened Tables
  import opened Protocol
  import opened Invariant
  import opened Preservation
  import opened Theorems
  import opened Callers
  import opened Gates
  import opened Leases
  import opened Workers
  import opened TickSteps
  import opened RetireSteps

  class ControlPlane {
    const c: Config
    var s: State
    ghost var trace: seq<Action>

    ghost predicate Valid()
      reads this
    {
      s == Reached(c, trace)
    }

    constructor (c: Config)
      ensures Valid() && this.c == c && trace == []
    {
      this.c, s, trace := c, Init(), [];
    }

    method Do(a: Action)
      requires Valid()
      modifies this
      ensures Valid() && s == Apply(c, old(s), a) && trace == old(trace) + [a]
    {
      RunSnoc(c, Init(), trace, a);
      s := Apply(c, s, a);
      trace := trace + [a];
    }

    // --- tick ---

    /** Any number of steps by others, as far as tick `k` and its attempt `w` can tell. */
    method InterfereWithTick(k: TickId, w: WorkerId)
      requires Valid() && k in s.started
      modifies this
      ensures Valid() && old(trace) <= trace
      ensures k in s.started && Mine(s, k) == old(Mine(s, k)) && Enduring(old(s), s)
      ensures w in Mine(s, k) ==> Marks(trace, w) == Marks(old(trace), w)
    {
      var steps: nat := *;
      while steps > 0
        invariant Valid() && old(trace) <= trace
        invariant k in s.started && Mine(s, k) == old(Mine(s, k)) && Enduring(old(s), s)
        invariant w in Mine(s, k) ==> Marks(trace, w) == Marks(old(trace), w)
      {
        var a: Action := *;
        if ForeignToTick(s, k, a) {
          ForeignKeepsMine(c, s, k, a);
          ForeignMarks(s, k, trace, a, w);
          StepEndures(c, s, a) by { ReachedInv(c, trace); }
          Do(a);
        }
        steps := steps - 1;
      }
    }

    /** One own step of an attempt of tick `k`, after any interference. */
    method Advance(k: TickId, a: Action)
      requires Valid() && k in s.started && OfAttempt(a) && a.w in Mine(s, k)
      modifies this
      ensures Valid() && old(trace) <= trace && Progress(old(s), s, k, a.w)
      ensures Stepped(old(Mine(s, k))[a.w].pc, old(Mine(s, k))[a.w].need, a, Mine(s, k)[a.w].pc)
      ensures Marks(trace, a.w) == Marks(old(trace), a.w) + [MarkOf(a)]
    {
      InterfereWithTick(k, a.w);
      Own(k, a);
    }

    /** That step itself. */
    method Own(k: TickId, a: Action)
      requires Valid() && k in s.started && OfAttempt(a) && a.w in Mine(s, k)
      modifies this
      ensures Valid() && trace == old(trace) + [a] && s == Apply(c, old(s), a) && Progress(old(s), s, k, a.w)
      ensures Stepped(old(Mine(s, k))[a.w].pc, old(Mine(s, k))[a.w].need, a, Mine(s, k)[a.w].pc)
      ensures Marks(trace, a.w) == Marks(old(trace), a.w) + [MarkOf(a)]
    {
      MarksSnoc(trace, a, a.w);
      AttemptOnlyMoves(c, s, a);
      MineOnlyMoves(s, Apply(c, s, a), k, a.w);
      StartedKept(c, s, k, a);
      OwnStepped(c, s, a);
      StepEndures(c, s, a) by { ReachedInv(c, trace); }
      Do(a);
    }

    /** Compensate a failed attempt all the way to its outcome. */
    method Compensate(k: TickId, w: WorkerId)
      requires Valid() && k in s.started && w in Mine(s, k)
      requires Mine(s, k)[w].pc.Failing? || Mine(s, k)[w].pc.Cleaning? || Mine(s, k)[w].pc.Settling?
      modifies this
      ensures Valid() && old(trace) <= trace && Progress(old(s), s, k, w)
      ensures Undone(Mine(s, k)[w].pc)
      ensures Marks(trace, w) == Marks(old(trace), w) + UndoMarks(old(Mine(s, k))[w].pc)
    {
      ghost var before := Marks(trace, w);
      if Mine(s, k)[w].pc.Failing? {
        StopWorker(k, w);
        InOrder3(before, [Stops], CleanMarks(Mine(s, k)[w].pc.registered), [Settles]);
        CleanAndSettle(k, w);
      } else if Mine(s, k)[w].pc.Cleaning? {
        CleanAndSettle(k, w);
      } else {
        SettleClaim(k, w);
      }
    }

    method CleanAndSettle(k: TickId, w: WorkerId)
      requires Valid() && k in s.started && w in Mine(s, k) && Mine(s, k)[w].pc.Cleaning?
      modifies this
      ensures Valid() && old(trace) <= trace && Progress(old(s), s, k, w)
      ensures Undone(Mine(s, k)[w].pc)
      ensures Marks(trace, w) == Marks(old(trace), w) + (CleanMarks(old(Mine(s, k))[w].pc.registered) + [Settles])
    {
      CleanUp(k, w);
      SettleClaim(k, w);
    }

    method StopWorker(k: TickId, w: WorkerId)
      requires Valid() && k in s.started && w in Mine(s, k) && Mine(s, k)[w].pc.Failing?
      modifies this
      ensures Valid() && old(trace) <= trace && Progress(old(s), s, k, w)
      ensures Mine(s, k)[w].pc.Cleaning? && Mine(s, k)[w].pc.registered == old(Mine(s, k))[w].pc.registered
      ensures Marks(trace, w) == Marks(old(trace), w) + [Stops]
    {
      var stopOk: bool := *;
      Advance(k, StopStarted(w, stopOk));
    }

    method SettleClaim(k: TickId, w: WorkerId)
      requires Valid() && k in s.started && w in Mine(s, k) && Mine(s, k)[w].pc.Settling?
      modifies this
      ensures Valid() && old(trace) <= trace && Progress(old(s), s, k, w)
      ensures Undone(Mine(s, k)[w].pc)
      ensures Marks(trace, w) == Marks(old(trace), w) + [Settles]
    {
      var now: int := *;
      var storeOk: bool := *;
      Advance(k, Settle(w, now, storeOk));
    }

    /** Drop the handle if one was registered, then give the lease back. */
    method CleanUp(k: TickId, w: WorkerId)
      requires Valid() && k in s.started && w in Mine(s, k) && Mine(s, k)[w].pc.Cleaning?
      modifies this
      ensures Valid() && old(trace) <= trace && Progress(old(s), s, k, w)
      ensures Mine(s, k)[w].pc.Settling?
      ensures Marks(trace, w) == Marks(old(trace), w) + CleanMarks(old(Mine(s, k))[w].pc.registered)
    {
      if Mine(s, k)[w].pc.registered {
        DropRegistered(k, w);
      }
      Advance(k, ReleaseLease(w));
    }

    method DropRegistered(k: TickId, w: WorkerId)
      requires Valid() && k in s.started && w in Mine(s, k)
      requires Mine(s, k)[w].pc.Cleaning? && Mine(s, k)[w].pc.registered
      modifies this
      ensures Valid() && old(trace) <= trace && Progress(old(s), s, k, w)
      ensures Mine(s, k)[w].pc == old(Mine(s, k))[w].pc.(registered := false)
      ensures Marks(trace, w) == Marks(old(trace), w) + [Unregisters]
    {
      Advance(k, Unregister(w));
    }

    /** Resolve adapters and resource of one claimed task; false when the claim was compensated. */
    method Prepare(k: TickId, w: WorkerId, f: Fortune) returns (ready: bool)
      requires Valid() && k in s.started && w in Mine(s, k) && Mine(s, k)[w].pc == Claimed
      modifies this
      ensures Valid() && old(trace) <= trace && Progress(old(s), s, k, w)
      ensures if ready then Mine(s, k)[w].pc.Leased? else Undone(Mine(s, k)[w].pc)
      ensures OnCourse(c, s, trace, w, f)
    {
      if f.resolution.Resolves? {
        ready := AskForLease(k, w);
        if ready {
          return;
        }
      }
      Unprepared(k, w, f);
      ready := false;
    }

    /** Ask for the resource: refused exactly when it is a GPU in use. */
    method AskForLease(k: TickId, w: WorkerId) returns (granted: bool)
      requires Valid() && k in s.started && w in Mine(s, k) && Mine(s, k)[w].pc == Claimed
      modifies this
      ensures Valid() && old(trace) <= trace && Progress(old(s), s, k, w)
      ensures if granted then Mine(s, k)[w].pc.Leased? else Mine(s, k)[w].pc == Claimed && WasRefused(c, trace, w)
    {
      InterfereWithTick(k, w);
      AskedInVain(c, s, w);
      Own(k, PrepareOk(w));
      granted := Mine(s, k)[w].pc.Leased?;
      if !granted {
        RefusedNow(c, trace, w);
      }
    }

    /** Nothing was prepared: the GPU is in use, or the answer was no. */
    method Unprepared(k: TickId, w: WorkerId, f: Fortune)
      requires Valid() && k in s.started && w in Mine(s, k) && Mine(s, k)[w].pc == Claimed
      requires f.resolution.Resolves? ==> WasRefused(c, trace, w)
      modifies this
      ensures Valid() && old(trace) <= trace && Progress(old(s), s, k, w)
      ensures Undone(Mine(s, k)[w].pc) && OnCourse(c, s, trace, w, f)
    {
      ghost var past := trace;
      Advance(k, PrepareFails(w, !f.resolution.Unfit?));
      assert f.resolution.Unfit? ==> Shut(s, w);
      Compensate(k, w);
      if f.resolution.Resolves? { RefusedStays(c, past, trace, w); }
    }

    /** What the pool thread does: call the runtime's `start`. */
    method Launch(k: TickId, w: WorkerId, f: Fortune)
      requires Valid() && k in s.started && w in Mine(s, k) && Mine(s, k)[w].pc.Leased? && OnCourse(c, s, trace, w, f)
      modifies this
      ensures Valid() && old(trace) <= trace && Progress(old(s), s, k, w)
      ensures Mine(s, k)[w].pc.Started? || Mine(s, k)[w].pc.Cleaning?
      ensures OnCourse(c, s, trace, w, f)
    {
      if f.startOk {
        Advance(k, StartOk(w));
      } else {
        Advance(k, StartFails(w, f.retryable));
        assert !f.retryable ==> Shut(s, w);
      }
    }

    /** What `tick` does with one finished start: activate it or compensate it. */
    method Complete(k: TickId, w: WorkerId, f: Fortune) returns (activated: bool)
      requires Valid() && k in s.started && w in Mine(s, k) && OnCourse(c, s, trace, w, f)
      requires Mine(s, k)[w].pc.Started? || Mine(s, k)[w].pc.Cleaning?
      modifies this
      ensures Valid() && old(trace) <= trace && Progress(old(s), s, k, w)
      ensures Mine(s, k)[w].pc.Finished? && OnCourse(c, s, trace, w, f)
      ensures activated <==> Mine(s, k)[w].pc == Finished(Activated)
      ensures Marks(old(trace), w) <= Marks(trace, w)
      ensures CompletionMarks(old(Mine(s, k))[w].pc, activated, Marks(trace, w)[|Marks(old(trace), w)|..])
    {
      if Mine(s, k)[w].pc.Started? {
        activated := CompleteStart(k, w, f);
      } else {
        Compensate(k, w);
        activated := false;
      }
    }

    method CompleteStart(k: TickId, w: WorkerId, f: Fortune) returns (activated: bool)
      requires Valid() && k in s.started && w in Mine(s, k) && Mine(s, k)[w].pc.Started? && OnCourse(c, s, trace, w, f)
      modifies this
      ensures Valid() && old(trace) <= trace && Progress(old(s), s, k, w)
      ensures Mine(s, k)[w].pc.Finished? && OnCourse(c, s, trace, w, f)
      ensures activated <==> Mine(s, k)[w].pc == Finished(Activated)
      ensures Marks(old(trace), w) <= Marks(trace, w)
      ensures CompletionMarks(old(Mine(s, k))[w].pc, activated, Marks(trace, w)[|Marks(old(trace), w)|..])
    {
      ghost var pc, before := Mine(s, k)[w].pc, Marks(trace, w);
      activated := TryActivate(k, w, f);
      if activated {
        return;
      }
      ghost var failing, own := Mine(s, k)[w].pc, Marks(trace, w)[|before|..];
      UndoStart(k, w, f);
      UndoneAfter(pc, failing, before, own, Marks(trace, w));
    }

    method UndoStart(k: TickId, w: WorkerId, f: Fortune)
      requires Valid() && k in s.started && w in Mine(s, k) && Mine(s, k)[w].pc.Failing? && FailedStart(c, s, w, f)
      modifies this
      ensures Valid() && old(trace) <= trace && Progress(old(s), s, k, w)
      ensures Undone(Mine(s, k)[w].pc) && OnCourse(c, s, trace, w, f)
      ensures Marks(trace, w) == Marks(old(trace), w) + UndoMarks(old(Mine(s, k))[w].pc)
    {
      assert s.attempts[w].task in s.used by { ReachedInv(c, trace); }
      Compensate(k, w);
    }

    /** Build the worker row, register the handle, activate. */
    method TryActivate(k: TickId, w: WorkerId, f: Fortune) returns (activated: bool)
      requires Valid() && k in s.started && w in Mine(s, k) && Mine(s, k)[w].pc.Started? && OnCourse(c, s, trace, w, f)
      modifies this
      ensures Valid() && old(trace) <= trace && Progress(old(s), s, k, w)
      ensures if activated then Mine(s, k)[w].pc == Finished(Activated) && OnCourse(c, s, trace, w, f)
              else Mine(s, k)[w].pc.Failing? && FailedStart(c, s, w, f)
      ensures Marks(trace, w) == Marks(old(trace), w) +
        if activated || Mine(s, k)[w].pc.registered then [Registers, Activates] else [Builds]
    {
      if f.rowOk {
        activated := RegisterAndActivate(k, w);
      } else {
        Advance(k, BuildFails(w, f.retryable));
        assert !f.retryable ==> Shut(s, w);
        activated := false;
      }
    }

    method RegisterAndActivate(k: TickId, w: WorkerId) returns (activated: bool)
      requires Valid() && k in s.started && w in Mine(s, k) && Mine(s, k)[w].pc.Started?
      modifies this
      ensures Valid() && old(trace) <= trace && Progress(old(s), s, k, w)
      ensures if activated then Mine(s, k)[w].pc == Finished(Activated)
              else Mine(s, k)[w].pc.Failing? && Mine(s, k)[w].pc.registered
      ensures !activated && !c.faults ==> Gone(s, Mine(s, k)[w].task)
      ensures Marks(trace, w) == Marks(old(trace), w) + [Registers, Activates]
    {
      Advance(k, Register(w));
      assert s.attempts[w].known by { ReachedInv(c, trace); assert AttemptOk(c, s, w); }
      var now: int := *;
      var storeOk: bool := *;
      Advance(k, Activate(w, now, storeOk));
      activated := Mine(s, k)[w].pc.Finished?;
      if !activated && !c.faults {
        assert Gone(s, s.attempts[w].task) by { ReachedInv(c, trace); assert AttemptOk(c, s, w); }
      }
    }

    /**
     * One scheduler tick.  Starts run on a pool and finish in any order; `fortune` is what
     * adapters, runtime and host answer for each attempt.  It claims first; when it returns,
     * every task it claimed has reached an outcome that agrees with the answers, and the result is
     * exactly the number of workers it activated.
     */
    method Tick(k: TickId, ids: map<TaskId, WorkerId>, now: int, fortune: WorkerId -> Fortune) returns (started: nat)
      requires Valid() && k !in s.started
      requires FreshIds(s, Elements(Claimable(s.db, c.maxActive)), ids)
      modifies this
      ensures Valid() && old(trace) + [Claim(k, ids, now)] <= trace
      ensures TickOver(s, k) && Took(Mine(s, k), Elements(Claimable(old(s).db, c.maxActive)), ids)
      ensures started == |ActivatedBy(s, k)|
      ensures forall w :: w in s.attempts && s.attempts[w].tick == k ==> Fated(c, s, trace, w, fortune(w))
    {
      ghost var past := trace;
      Open(k, ids, now, fortune);
      var prepared := PrepareAll(k, fortune);
      started := RunPool(k, prepared, fortune);
      TickTook(c, past, k, ids, now, trace);
    }

    /** The claim transaction of a tick. */
    method Open(k: TickId, ids: map<TaskId, WorkerId>, now: int, ghost fortune: WorkerId -> Fortune)
      requires Valid() && k !in s.started
      requires FreshIds(s, Elements(Claimable(s.db, c.maxActive)), ids)
      modifies this
      ensures Valid() && trace == old(trace) + [Claim(k, ids, now)] && k in s.started
      ensures Preparing(Mine(s, k), Mine(s, k).Keys, {}) && AllOnCourse(c, s, trace, k, fortune)
    {
      ClaimOpensTick(c, s, k, ids, now) by { ReachedInv(c, trace); }
      Do(Claim(k, ids, now));
    }

    /** Resolve every claimed task in turn. */
    method PrepareAll(k: TickId, fortune: WorkerId -> Fortune) returns (prepared: set<WorkerId>)
      requires Valid() && k in s.started && Preparing(Mine(s, k), Mine(s, k).Keys, {})
      requires AllOnCourse(c, s, trace, k, fortune)
      modifies this
      ensures Valid() && old(trace) <= trace && k in s.started
      ensures Preparing(Mine(s, k), {}, prepared) && AllOnCourse(c, s, trace, k, fortune)
    {
      var unprepared := Mine(s, k).Keys;
      prepared := {};
      while unprepared != {}
        invariant Valid() && old(trace) <= trace && k in s.started
        invariant Preparing(Mine(s, k), unprepared, prepared) && AllOnCourse(c, s, trace, k, fortune)
        decreases |unprepared|
      {
        var w :| w in unprepared;
        ghost var before, past := s, trace;
        assert UsedOk(s) by { ReachedInv(c, trace); }
        var ready := Prepare(k, w, fortune(w));
        OthersOnCourse(c, before, past, s, trace, k, w, fortune);
        PreparedOne(Mine(before, k), Mine(s, k), unprepared, prepared, w, ready);
        unprepared := unprepared - {w};
        prepared := if ready then prepared + {w} else prepared;
      }
    }

    /** Run the prepared starts on the pool and complete each one as it finishes. */
    method RunPool(k: TickId, prepared: set<WorkerId>, fortune: WorkerId -> Fortune) returns (started: nat)
      requires Valid() && k in s.started && Preparing(Mine(s, k), {}, prepared) && AllOnCourse(c, s, trace, k, fortune)
      modifies this
      ensures Valid() && old(trace) <= trace
      ensures TickOver(s, k)
      ensures started == |ActivatedBy(s, k)|
      ensures forall w :: w in s.attempts && s.attempts[w].tick == k ==> Fated(c, s, trace, w, fortune(w))
    {
      var waiting, running := prepared, {};
      ghost var activated: set<WorkerId> := {};
      started := 0;
      while waiting != {} || running != {}
        invariant Valid() && old(trace) <= trace && k in s.started
        invariant Pooling(Mine(s, k), waiting, running, activated) && AllOnCourse(c, s, trace, k, fortune)
        invariant started == |activated|
        decreases |waiting|, |running|
      {
        var starts: bool := *;
        if waiting != {} && (starts || running == {}) {
          var w :| w in waiting;
          LaunchOne(k, w, fortune, waiting, running, activated);
          waiting, running := waiting - {w}, running + {w};
        } else {
          var w :| w in running;
          var ok := CompleteOne(k, w, fortune, waiting, running, activated);
          running := running - {w};
          if ok {
            started := started + 1;
            activated := activated + {w};
          }
        }
      }
      MineIsOver(s, k, activated);
      MineIsFated(c, s, trace, k, fortune);
    }

    method LaunchOne(
        k: TickId, w: WorkerId, fortune: WorkerId -> Fortune,
        ghost waiting: set<WorkerId>, ghost running: set<WorkerId>, ghost activated: set<WorkerId>)
      requires Valid() && k in s.started && AllOnCourse(c, s, trace, k, fortune)
      requires Pooling(Mine(s, k), waiting, running, activated) && w in waiting
      modifies this
      ensures Valid() && old(trace) <= trace && k in s.started && AllOnCourse(c, s, trace, k, fortune)
      ensures Pooling(Mine(s, k), waiting - {w}, running + {w}, activated)
    {
      ghost var before, past := s, trace;
      assert UsedOk(s) by { ReachedInv(c, trace); }
      Launch(k, w, fortune(w));
      OthersOnCourse(c, before, past, s, trace, k, w, fortune);
      PoolLaunched(Mine(before, k), Mine(s, k), waiting, running, activated, w);
    }

    method CompleteOne(
        k: TickId, w: WorkerId, fortune: WorkerId -> Fortune,
        ghost waiting: set<WorkerId>, ghost running: set<WorkerId>, ghost activated: set<WorkerId>)
      returns (ok: bool)
      requires Valid() && k in s.started && AllOnCourse(c, s, trace, k, fortune)
      requires Pooling(Mine(s, k), waiting, running, activated) && w in running
      modifies this
      ensures Valid() && old(trace) <= trace && k in s.started && AllOnCourse(c, s, trace, k, fortune)
      ensures Pooling(Mine(s, k), waiting, running - {w}, if ok then activated + {w} else activated)
    {
      ghost var before, past := s, trace;
      assert UsedOk(s) by { ReachedInv(c, trace); }
      ok := Complete(k, w, fortune(w));
      OthersOnCourse(c, before, past, s, trace, k, w, fortune);
      PoolCompleted(Mine(before, k), Mine(s, k), waiting, running, activated, w, ok);
    }

    // --- retire ---

    /** Any number of steps by others, as far as the retirement of `t` can tell. */
    method InterfereWithRetire(t: TaskId)
      requires Valid() && t in s.retirements
      modifies this
      ensures Valid() && old(trace) <= trace
      ensures t in s.retirements && s.retirements[t] == old(s.retirements[t])
      ensures Outlook(old(s.db), s.db, t) && Lasting(old(s), s, t)
    {
      var steps: nat := *;
      while steps > 0
        invariant Valid() && old(trace) <= trace
        invariant t in s.retirements && s.retirements[t] == old(s.retirements[t])
        invariant Outlook(old(s.db), s.db, t) && Lasting(old(s), s, t)
      {
        var a: Action := *;
        if ForeignToRetire(t, a) {
          assert t in s.used by { ReachedInv(c, trace); assert RetireOk(s, t); }
          ForeignKeepsRetirement(c, s, t, a);
          ForeignOutlook(c, s, t, a) by { ReachedInv(c, trace); }
          StepLasts(c, s, a, t) by { ReachedInv(c, trace); }
          Do(a);
        }
        steps := steps - 1;
      }
    }

    /** One own step that only reads or keeps the books, after any interference. */
    method Step(t: TaskId, a: Action)
      requires Valid() && t in s.retirements && OfRetirement(a) && !a.Commit? && a.t == t
      modifies this
      ensures Valid() && old(trace) <= trace
      ensures Outlook(old(s.db), s.db, t) && Lasting(old(s), s, t)
      ensures Moved(c, old(s.retirements[t]), a, s, t)
    {
      InterfereWithRetire(t);
      BookkeepingKeepsDb(c, s, a);
      StepMoves(c, s, a);
      StepLasts(c, s, a, t) by { ReachedInv(c, trace); }
      Do(a);
    }

    /** Drop the handle and leave, releasing the guard. */
    method Leave(t: TaskId)
      requires Valid() && t in s.retirements && (s.retirements[t].pc.Dropping? || s.retirements[t].pc.Exiting?)
      modifies this
      ensures Valid() && old(trace) <= trace && t !in s.retirements
      ensures Outlook(old(s.db), s.db, t) && Lasting(old(s), s, t)
      ensures old(s.retirements[t].pc.Dropping?) && old(WasActivated(s, t) && Gone(s, t)) ==> HandleAway(s, t)
    {
      if s.retirements[t].pc.Dropping? {
        Step(t, DropHandle(t));
        assert t in s.used by { ReachedInv(c, trace); assert RetireOk(s, t); }
      }
      Step(t, ExitRetire(t));
    }

    /**
     * Retire a worker, or mark its task STUCK, which is no retirement: no guard is taken.
     * `stopOk` and `passed` are the answers of the runtime and of the task's evaluator.
     *
     * A terminal call on a live task ends it, unless the task is deleted or the store
     * fails meanwhile; and the guard is free again on every path.  A terminal state that
     * is returned has been committed and is still the task's state: it is the target,
     * or what the evaluator made of DONE, and the evaluation is on record.  Then the
     * worker stopped through the handle is not running, nothing is held for the worker
     * any more, and the handle is gone.
     */
    method Retire(t: TaskId, worker: Option<WorkerId>, target: TaskState, stop: bool, stopOk: bool, passed: bool)
      returns (reply: Answer)
      requires Valid()
      requires target.Stuck? || (target.Terminal() && CanName(s, t, worker))
      modifies this
      ensures Valid() && old(trace) <= trace
      ensures target.Stuck? ==> StuckAnswer(c, s, t, reply)
      ensures target.Terminal() && t in old(s.retirements) ==> reply == NoState && s == old(s)
      ensures target.Terminal() && t !in old(s.retirements) ==> t !in s.retirements
      ensures target.Terminal() && reply.Ended? ==>
        && reply.state.Terminal() && (t in s.db.tasks ==> StateIs(s.db, t, reply.state))
        && t in old(s.db.tasks)
        && (target == Done && old(s.db.tasks)[t].gated ==>
              && reply.state == (if passed then Done else Failed)
              && (t in s.db.tasks ==> Evaluations(s.db.log, t) == [passed]))
        && (target != Done || !old(s.db.tasks)[t].gated ==> reply.state == target)
      ensures target.Terminal() && reply.Ended? && stop && stopOk && t in old(s.handles) ==>
        old(s.handles)[t] !in s.live
      ensures target.Terminal() && reply.Ended? && old(IsLive(s.db, t)) ==>
        && t !in s.handles
        && (!c.faults ==> worker.Some? && forall u :: u in s.held ==> s.held[u] != worker.value)
      ensures target.Terminal() && t !in old(s.retirements) && old(IsLive(s.db, t)) && !c.faults ==>
        reply.Ended? || t !in s.db.tasks
    {
      if target.Stuck? {
        reply := MarkTaskStuck(t);
        return;
      }
      if t in s.retirements {
        return NoState;
      }
      LiveWasActivated(c, trace, s, t);
      ReadRows(t, worker, target, stop);
      if s.retirements[t].pc.TaskRead? {
        reply := Conclude(t, stopOk, passed);
      } else {
        reply := if s.retirements[t].pc.Exiting? then Error else NoState;
        Leave(t);
      }
    }

    /** Any number of steps by anybody. */
    method InterfereFreely()
      requires Valid()
      modifies this
      ensures Valid() && old(trace) <= trace
    {
      var steps: nat := *;
      while steps > 0
        invariant Valid() && old(trace) <= trace
      {
        var a: Action := *;
        Do(a);
        steps := steps - 1;
      }
    }

    /** Read the task, then write STUCK; the answer is STUCK whether or not the write was declined. */
    method MarkTaskStuck(t: TaskId) returns (reply: Answer)
      requires Valid()
      modifies this
      ensures Valid() && old(trace) <= trace
      ensures StuckAnswer(c, s, t, reply)
    {
      InterfereFreely();
      if t !in s.db.tasks || s.db.tasks[t].state.Stuck? {
        return NoState;
      }
      InterfereFreely();
      var storeOk: bool := *;
      if c.faults && !storeOk {
        return Error;
      }
      var now: int := *;
      var outcome := SetTaskState(s.db, t, MarkStuck.Target(), Some(MarkStuck.Expected()), now);
      MarkStuckRaisesExactlyWhenPaused(s.db, t, now);
      Do(Steer(t, MarkStuck, now));
      return if outcome.Raised? then Error else Ended(Stuck);
    }

    /** Take the guard, then read the worker row and the task row in two transactions. */
    method ReadRows(t: TaskId, worker: Option<WorkerId>, target: TaskState, stop: bool)
      requires Valid() && target.Terminal() && CanName(s, t, worker) && t !in s.retirements
      modifies this
      ensures Valid() && old(trace) <= trace && t in s.retirements && Lasting(old(s), s, t)
      ensures var pc := s.retirements[t].pc;
        || (pc.TaskRead? && HasRead(c, old(s), s.retirements[t], t, worker, target, stop))
        || (pc.Dropping? && Gone(s, t) && (old(IsLive(s.db, t)) ==> t !in s.db.tasks))
        || (pc.Exiting? && c.faults)
    {
      TakeGuard(t, worker, target, stop);
      LookUpWorker(t);
      if s.retirements[t].pc.WorkerRead? {
        LookUpTask(t);
      }
    }

    method LookUpWorker(t: TaskId)
      requires Valid() && t in s.retirements && s.retirements[t].pc.Begun?
      modifies this
      ensures Valid() && old(trace) <= trace && t in s.retirements
      ensures Outlook(old(s.db), s.db, t) && Lasting(old(s), s, t)
      ensures var r, r' := old(s.retirements[t]), s.retirements[t];
        || (r'.pc.WorkerRead? && SameCall(r, r')
            && (!c.faults && IsLive(s.db, t) ==> r.worker.Some? && r'.pc.row.Some?))
        || (r'.pc.Exiting? && c.faults)
    {
      ReadOrFail(t, ReadWorker(t));
      if !c.faults && IsLive(s.db, t) {
        ActiveRowThere(c, s, t) by { ReachedInv(c, trace); }
      }
    }

    method LookUpTask(t: TaskId)
      requires Valid() && t in s.retirements && s.retirements[t].pc.WorkerRead?
      modifies this
      ensures Valid() && old(trace) <= trace && t in s.retirements
      ensures Lasting(old(s), s, t) && Outlook(old(s.db), s.db, t)
      ensures var r, r' := old(s.retirements[t]), s.retirements[t];
        || (r'.pc.TaskRead? && SameCall(r, r') && r'.pc.row == r.pc.row
            && t in s.db.tasks && r'.pc.task == s.db.tasks[t])
        || (r'.pc.Dropping? && Gone(s, t))
        || (r'.pc.Exiting? && c.faults)
    {
      ReadOrFail(t, ReadTask(t));
    }

    /** One read of `retire`, which may raise. */
    method ReadOrFail(t: TaskId, a: Action)
      requires Valid() && t in s.retirements
      requires
        || (a == ReadWorker(t) && s.retirements[t].pc.Begun?)
        || (a == ReadTask(t) && s.retirements[t].pc.WorkerRead?)
      modifies this
      ensures Valid() && old(trace) <= trace && t in s.retirements
      ensures Outlook(old(s.db), s.db, t) && Lasting(old(s), s, t)
      ensures Moved(c, old(s.retirements[t]), a, s, t) || (s.retirements[t].pc.Exiting? && c.faults)
    {
      var readOk: bool := *;
      if c.faults && !readOk {
        Step(t, ReadFails(t));
      } else {
        Step(t, a);
      }
    }

    method TakeGuard(t: TaskId, worker: Option<WorkerId>, target: TaskState, stop: bool)
      requires Valid() && target.Terminal() && CanName(s, t, worker) && t !in s.retirements
      modifies this
      ensures Valid() && old(trace) <= trace && Lasting(old(s), s, t)
      ensures t in s.retirements && s.db == old(s.db)
      ensures s.retirements[t] ==
        Retirement(worker, target, stop, if t in old(s.handles) then Some(old(s.handles)[t]) else None, Begun)
    {
      StepLasts(c, s, BeginRetire(t, worker, target, stop), t) by { ReachedInv(c, trace); }
      Do(BeginRetire(t, worker, target, stop));
    }

    /** From the two reads to the end: stop, judge, commit, release, leave. */
    method Conclude(t: TaskId, stopOk: bool, passed: bool) returns (reply: Answer)
      requires Valid() && t in s.retirements && s.retirements[t].pc.TaskRead?
      modifies this
      ensures Valid() && old(trace) <= trace && t !in s.retirements && Lasting(old(s), s, t)
      ensures reply.Ended? ==> Concluded(old(s), s, t, stopOk, passed, reply.state)
      ensures old(s.retirements[t].pc.task.state.Live()) && !c.faults ==> reply.Ended? || t !in s.db.tasks
    {
      StopAndJudge(t, stopOk, passed);
      reply := CommitVerdict(t, passed);
      GiveBack(t);
    }

    /** Stop the worker, if asked to, and hear the evaluator. */
    method StopAndJudge(t: TaskId, stopOk: bool, passed: bool)
      requires Valid() && t in s.retirements && s.retirements[t].pc.TaskRead?
      modifies this
      ensures Valid() && old(trace) <= trace && t in s.retirements
      ensures Outlook(old(s.db), s.db, t) && Lasting(old(s), s, t)
      ensures var r, r' := old(s.retirements[t]), s.retirements[t];
        && SameRows(r, r') && r'.pc.Judged? && Judgement(r.target, r.pc.task.gated, passed, r'.pc)
        && (r.stop && stopOk && r.handle.Some? && CanName(old(s), t, r.handle) ==> Quenched(s, t, r.handle.value))
    {
      ghost var r := s.retirements[t];
      Step(t, StopRetiree(t, stopOk));
      assert r.stop && stopOk && r.handle.Some? && CanName(old(s), t, r.handle) ==> Quenched(s, t, r.handle.value);
      Step(t, Judge(t, passed));
    }

    /** After a commit that landed, release the lease; then leave. */
    method GiveBack(t: TaskId)
      requires Valid() && t in s.retirements && (s.retirements[t].pc.Retired? || s.retirements[t].pc.Exiting?)
      modifies this
      ensures Valid() && old(trace) <= trace && t !in s.retirements
      ensures Outlook(old(s.db), s.db, t) && Lasting(old(s), s, t)
      ensures var r := old(s.retirements[t]);
        r.pc.Retired? ==>
          && (r.pc.row.Some? ==> r.worker.Some? && Bare(s, r.worker.value))
          && (old(WasActivated(s, t) && Gone(s, t)) ==> HandleAway(s, t))
    {
      if s.retirements[t].pc.Retired? {
        ReleaseLeaseOf(t);
      }
      Leave(t);
    }

    method ReleaseLeaseOf(t: TaskId)
      requires Valid() && t in s.retirements && s.retirements[t].pc.Retired?
      modifies this
      ensures Valid() && old(trace) <= trace && t in s.retirements && s.retirements[t].pc.Dropping?
      ensures Outlook(old(s.db), s.db, t) && Lasting(old(s), s, t)
      ensures var r := old(s.retirements[t]); r.pc.row.Some? ==> r.worker.Some? && Bare(s, r.worker.value)
    {
      InterfereWithRetire(t);
      BookkeepingKeepsDb(c, s, ReleaseRetiree(t));
      StepMoves(c, s, ReleaseRetiree(t));
      StepLasts(c, s, ReleaseRetiree(t), t) by { ReachedInv(c, trace); }
      if s.retirements[t].pc.row.Some? {
        RetirementGivesBack(c, s, t) by { ReachedInv(c, trace); ReachedAgrees(c, trace); }
      }
      Do(ReleaseRetiree(t));
    }

    /** The commit of a retirement: it lands, is declined, or raises. */
    method CommitVerdict(t: TaskId, ghost passed: bool) returns (reply: Answer)
      requires Valid() && t in s.retirements && s.retirements[t].pc.Judged?
      requires var r := s.retirements[t]; Judgement(r.target, r.pc.task.gated, passed, r.pc)
      modifies this
      ensures Valid() && old(trace) <= trace && t in s.retirements && Lasting(old(s), s, t)
      ensures t !in old(s.db.tasks) ==> t !in s.db.tasks
      ensures var r, r' := old(s.retirements[t]), s.retirements[t];
        && SameCall(r, r') && (r'.pc.Exiting? || r'.pc == Retired(r.pc.row, r.pc.task))
        && (reply.Ended? ==>
              && r'.pc.Retired? && r.pc.verdict == Some(reply.state)
              && StateIs(s.db, t, reply.state) && reply.state.Terminal()
              && (r.target == Done && r.pc.task.gated ==> Evaluations(s.db.log, t) == [passed]))
      ensures old(s.retirements[t].pc.task.state.Live()) && !c.faults ==> reply.Ended? || t !in s.db.tasks
    {
      InterfereWithRetire(t);
      var r := s.retirements[t];
      var now: int := *;
      var storeOk: bool := *;
      var outcome := CommitWrite(s, r, t, now);
      CommitReply(c, s, t, now, storeOk) by { ReachedInv(c, trace); }
      StepLasts(c, s, Commit(t, now, storeOk), t) by { ReachedInv(c, trace); }
      if r.target == Done && r.pc.task.gated && r.pc.verdict.Some? && t in s.db.tasks {
        CommitRecords(c, s, t, now, storeOk, r.target, r.pc.task.gated, passed) by { ReachedInv(c, trace); }
      }
      Do(Commit(t, now, storeOk));
      if outcome.Committed? && (storeOk || !c.faults) {
        return if r.pc.verdict.Some? then Ended(r.pc.verdict.value) else NoState;
      }
      return if outcome.Refused? then NoState else Error;
    }
  }
}
