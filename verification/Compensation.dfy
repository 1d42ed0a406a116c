/** How a failed dispatch ends: what the settling write makes of the task, now and for good. */
module Compensation {
  import opened Basics
  import opened Lifecycle
  import opened Tables
  import opened Protocol
  import opened Invariant
  import opened Preservation
  import opened Theorems

  /** The reasons an attempt has gathered by the time it settles. */
  ghost predicate SettlesFor(s: State, w: WorkerId, stopFailed: bool, retryable: bool) {
    w in s.attempts && s.attempts[w].pc == Settling(stopFailed, retryable)
  }

  /**
   * A settling write that lands on a task still reserved makes it LOST exactly if the stop
   * failed, QUEUED exactly if it did not and the failure may be retried, and FAILED
   * otherwise.  It stamps the task and writes nothing else; on a task that is reserved no
   * longer it writes nothing at all.
   */
  lemma SettlingDecides(c: Config, s: State, w: WorkerId, stopFailed: bool, retryable: bool, now: int, storeOk: bool)
    requires SettlesFor(s, w, stopFailed, retryable) && (storeOk || !c.faults)
    ensures var t, db' := s.attempts[w].task, Apply(c, s, Settle(w, now, storeOk)).db;
      if StateIs(s.db, t, Dispatching) then
        && db'.tasks.Keys == s.db.tasks.Keys && db'.workers == s.db.workers && db'.log == s.db.log
        && (forall u :: u in s.db.tasks && u != t ==> db'.tasks[u] == s.db.tasks[u])
        && (StateIs(db', t, Lost) <==> stopFailed)
        && (StateIs(db', t, Queued) <==> !stopFailed && retryable)
        && (StateIs(db', t, Failed) <==> !stopFailed && !retryable)
        && db'.tasks[t].updated == now
      else db' == s.db
  {
  }

  /** This step says of its attempt that there is no point in trying again. */
  predicate GivesUp(s: State, a: Action) {
    match a
    case PrepareFails(w, retryable) => !retryable && w in s.attempts && s.attempts[w].pc.Claimed?
    case StartFails(w, retryable) => !retryable && w in s.attempts && s.attempts[w].pc.Leased?
    case BuildFails(w, retryable) => !retryable && w in s.attempts && s.attempts[w].pc.Started?
    case _ => false
  }

  lemma GivenUpIsShut(c: Config, s: State, a: Action)
    requires GivesUp(s, a)
    ensures Shut(Apply(c, s, a), a.w) && Apply(c, s, a).attempts[a.w].task == s.attempts[a.w].task
  {
    match a
    case PrepareFails(w, retryable) => assert Shut(DoPrepareFails(s, w, retryable), w);
    case StartFails(w, retryable) => assert Shut(DoStartFails(s, w, retryable), w);
    case BuildFails(w, retryable) => assert Shut(DoBuildFails(s, w, retryable), w);
  }

  /** After a failure that may not be retried the task is never queued again, whatever else happens. */
  lemma GivenUpNeverRequeued(c: Config, actions: seq<Action>, a: Action, more: seq<Action>)
    requires GivesUp(Reached(c, actions), a)
    ensures !StateIs(Run(c, Apply(c, Reached(c, actions), a), more).db, Reached(c, actions).attempts[a.w].task, Queued)
  {
    var s := Reached(c, actions);
    ReachedInv(c, actions);
    StepKeepsInv(c, s, a);
    GivenUpIsShut(c, s, a);
    FailedStopNeverRequeues(c, Apply(c, s, a), more, a.w);
  }
}
