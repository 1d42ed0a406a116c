/**
 * External workers and the handles on them: which steps start, stop and lose a worker,
 * and which install and remove a handle.
 */
module Workers {
  import opened Basics
  import opened Tables
  import opened Protocol
  import opened Invariant
  import opened Preservation
  import opened Theorems
  import opened Callers
  import opened Leases

  // --- workers ---

  /** The pool thread's start of `w` succeeds. */
  predicate Starts(s: State, a: Action, w: WorkerId) {
    a == StartOk(w) && w in s.attempts && s.attempts[w].pc.Leased?
  }

  /** `w` dies, or a stop of it succeeds: that of its own failed dispatch, or that of a retirement of its handle. */
  predicate Ends(s: State, a: Action, w: WorkerId) {
    || a == WorkerDies(w)
    || (a == StopStarted(w, true) && w in s.attempts && s.attempts[w].pc.Failing?)
    || (a.StopRetiree? && a.ok && a.t in s.retirements && s.retirements[a.t].pc.TaskRead?
        && s.retirements[a.t].stop && s.retirements[a.t].handle == Some(w))
  }

  /** A worker runs after a step exactly if the step starts it, or it ran before and the step does not end it. */
  lemma WorkersComeAndGo(c: Config, s: State, a: Action, w: WorkerId)
    ensures w in Apply(c, s, a).live <==> Starts(s, a, w) || (w in s.live && !Ends(s, a, w))
  {
    if OfAttempt(a) {
      AttemptWorkers(c, s, a, w);
    } else if IsReadStep(a) || IsLeaveStep(a) {
      BookkeepingWorkers(c, s, a, w);
    } else if IsDecideStep(a) {
      DecisionWorkers(c, s, a, w);
    }
  }

  lemma AttemptWorkers(c: Config, s: State, a: Action, w: WorkerId)
    requires OfAttempt(a)
    ensures w in Apply(c, s, a).live <==> Starts(s, a, w) || (w in s.live && !Ends(s, a, w))
  {
    if IsLaunchStep(a) {
      LaunchWorkers(c, s, a, w);
    } else if IsRegisterStep(a) {
      RegisterWorkers(c, s, a, w);
    }
  }

  lemma LaunchWorkers(c: Config, s: State, a: Action, w: WorkerId)
    requires IsLaunchStep(a)
    ensures w in Apply(c, s, a).live <==> Starts(s, a, w) || (w in s.live && !Ends(s, a, w))
  {
  }

  lemma RegisterWorkers(c: Config, s: State, a: Action, w: WorkerId)
    requires IsRegisterStep(a)
    ensures w in Apply(c, s, a).live <==> Starts(s, a, w) || (w in s.live && !Ends(s, a, w))
  {
  }

  lemma BookkeepingWorkers(c: Config, s: State, a: Action, w: WorkerId)
    requires IsReadStep(a) || IsLeaveStep(a)
    ensures w in Apply(c, s, a).live <==> Starts(s, a, w) || (w in s.live && !Ends(s, a, w))
  {
  }

  lemma DecisionWorkers(c: Config, s: State, a: Action, w: WorkerId)
    requires IsDecideStep(a)
    ensures w in Apply(c, s, a).live <==> Starts(s, a, w) || (w in s.live && !Ends(s, a, w))
  {
  }

  /** A worker that was registered once and does not run. */
  ghost predicate Quenched(s: State, t: TaskId, w: WorkerId) {
    CanName(s, t, Some(w)) && w !in s.live
  }

  /** It never runs again. */
  lemma QuenchedStays(c: Config, s: State, a: Action, t: TaskId, w: WorkerId)
    requires Attempts(c, s) && Quenched(s, t, w)
    ensures Quenched(Apply(c, s, a), t, w)
  {
    NameStays(c, s, a, t, w);
    WorkersComeAndGo(c, s, a, w);
    assert AttemptOk(c, s, w);
  }

  /** A stop that succeeds leaves the worker of the handle it was given not running, for the rest of the run. */
  lemma {:induction false} StoppedForGood(c: Config, actions: seq<Action>, t: TaskId, more: seq<Action>)
    requires var s := Reached(c, actions);
      && t in s.retirements && s.retirements[t].pc.TaskRead? && s.retirements[t].stop && s.retirements[t].handle.Some?
      && CanName(s, t, s.retirements[t].handle)
    ensures var w := Reached(c, actions).retirements[t].handle.value;
      w !in Run(c, Apply(c, Reached(c, actions), StopRetiree(t, true)), more).live
  {
    var s := Reached(c, actions);
    var w := s.retirements[t].handle.value;
    ReachedInv(c, actions);
    StepKeepsInv(c, s, StopRetiree(t, true));
    NameStays(c, s, StopRetiree(t, true), t, w);
    WorkersComeAndGo(c, s, StopRetiree(t, true), w);
    QuenchedRun(c, Apply(c, s, StopRetiree(t, true)), more, t, w);
  }

  lemma {:induction false} QuenchedRun(c: Config, s: State, actions: seq<Action>, t: TaskId, w: WorkerId)
    requires Inv(c, s) && Quenched(s, t, w)
    ensures Quenched(Run(c, s, actions), t, w)
    decreases |actions|
  {
    if actions == [] {
    } else {
      StepKeepsInv(c, s, actions[0]);
      QuenchedStays(c, s, actions[0], t, w);
      QuenchedRun(c, Apply(c, s, actions[0]), actions[1..], t, w);
    }
  }

  // --- handles ---

  /** The handle a step installs: that of a finished start, or one that recovery found. */
  function Installs(s: State, a: Action): Option<(TaskId, WorkerId)> {
    match a
    case Register(w) => if w in s.attempts && s.attempts[w].pc.Started? then Some((s.attempts[w].task, w)) else None
    case Reattach(t, w) =>
      if IsLive(s.db, t) && w in ActiveOf(s.db, t) then Some((t, w)) else None
    case _ => None
  }

  /** The task whose handle a step removes: a failed dispatch's, or a retired task's. */
  function Removes(s: State, a: Action): Option<TaskId> {
    match a
    case Unregister(w) =>
      if w in s.attempts && s.attempts[w].pc.Cleaning? && s.attempts[w].pc.registered then Some(s.attempts[w].task)
      else None
    case DropHandle(t) => if t in s.retirements && s.retirements[t].pc.Dropping? then Some(t) else None
    case _ => None
  }

  ghost predicate HandlesAsTold(s: State, s': State, a: Action) {
    s'.handles ==
      if Installs(s, a).Some? then s.handles[Installs(s, a).value.0 := Installs(s, a).value.1]
      else if Removes(s, a).Some? then s.handles - {Removes(s, a).value}
      else s.handles
  }

  /** The registry changes by installing or removing one handle, or not at all. */
  lemma HandlesChangeExactly(c: Config, s: State, a: Action)
    requires !a.Restart?
    ensures HandlesAsTold(s, Apply(c, s, a), a)
  {
    if IsLaunchStep(a) {
      LaunchHandles(c, s, a);
    } else if IsRegisterStep(a) {
      RegisterHandles(c, s, a);
    } else if IsCompensateStep(a) {
      CompensateHandles(c, s, a);
    } else if IsReadStep(a) || IsDecideStep(a) {
      RetireHandles(c, s, a);
    }
  }

  lemma LaunchHandles(c: Config, s: State, a: Action)
    requires IsLaunchStep(a)
    ensures HandlesAsTold(s, Apply(c, s, a), a)
  {
  }

  lemma RegisterHandles(c: Config, s: State, a: Action)
    requires IsRegisterStep(a)
    ensures HandlesAsTold(s, Apply(c, s, a), a)
  {
  }

  lemma CompensateHandles(c: Config, s: State, a: Action)
    requires IsCompensateStep(a)
    ensures HandlesAsTold(s, Apply(c, s, a), a)
  {
  }

  lemma RetireHandles(c: Config, s: State, a: Action)
    requires IsReadStep(a) || IsDecideStep(a)
    ensures HandlesAsTold(s, Apply(c, s, a), a)
  {
  }

  // --- leases ---

  /** Nothing is ever held again for a finished attempt that has given everything back. */
  lemma BareStays(c: Config, s: State, a: Action, w: WorkerId)
    requires Bare(s, w)
    ensures Bare(Apply(c, s, a), w)
  {
    FinishedStays(c, s, a, w);
    if OfAttempt(a) {
      AttemptHolds(c, s, a, w);
    } else {
      OthersHoldNothingNew(c, s, a);
    }
  }

  lemma AttemptHolds(c: Config, s: State, a: Action, w: WorkerId)
    requires OfAttempt(a) && w in s.attempts && s.attempts[w].pc.Finished?
    ensures forall u :: u in Apply(c, s, a).held && Apply(c, s, a).held[u] == w ==> u in s.held && s.held[u] == w
  {
    if IsLaunchStep(a) {
      LaunchHolds(c, s, a, w);
    }
  }

  lemma LaunchHolds(c: Config, s: State, a: Action, w: WorkerId)
    requires IsLaunchStep(a) && w in s.attempts && s.attempts[w].pc.Finished?
    ensures forall u :: u in Apply(c, s, a).held && Apply(c, s, a).held[u] == w ==> u in s.held && s.held[u] == w
  {
  }

  lemma OthersHoldNothingNew(c: Config, s: State, a: Action)
    requires !OfAttempt(a)
    ensures HeldShrinks(s.held, Apply(c, s, a).held)
  {
  }
}
