/**
 * Who may call `retire`, and with which worker id.  The observer and the stop action
 * take the id from the handle registry, recovery and the heartbeat route from the
 * active worker row; the call itself may come any number of steps later.
 */
module Callers {
  import opened Basics
  import opened Tables
  import opened Queueing
  import opened Protocol
  import opened Invariant
  import opened Preservation
  import opened Theorems

  /** A worker id read from the handle registry, or from an active row, stays one that `retire` may be given. */
  lemma {:induction false} KnownIdStaysCallable(c: Config, s: State, actions: seq<Action>, t: TaskId, w: WorkerId)
    requires Inv(c, s)
    requires (t in s.handles && s.handles[t] == w) || w in ActiveOf(s.db, t) || CanName(s, t, Some(w))
    ensures CanName(Run(c, s, actions), t, Some(w))
    decreases |actions|
  {
    if t in s.handles && s.handles[t] == w { assert HandleOk(s, t); }
    if w in ActiveOf(s.db, t) { assert RowOk(s, w) && AttemptOk(c, s, w); }
    if actions == [] {
    } else {
      NameStays(c, s, actions[0], t, w);
      StepKeepsInv(c, s, actions[0]);
      KnownIdStaysCallable(c, Apply(c, s, actions[0]), actions[1..], t, w);
    }
  }

  /**
   * The heartbeat route sees an active worker first and asks for its id again later: it
   * gets that worker's id, or none.
   */
  lemma {:induction false} LateLookupIsCallable(c: Config, s: State, actions: seq<Action>, t: TaskId)
    requires Inv(c, s) && (ActiveOf(s.db, t) != {} || WasActivated(s, t))
    ensures var s' := Run(c, s, actions);
      && WasActivated(s', t) && s'.owner[t] == s.owner[t]
      && ActiveOf(s'.db, t) <= {s.owner[t]}
      && (ActiveOf(s'.db, t) == {} ==> CanName(s', t, None))
    decreases |actions|
  {
    ActiveWasActivated(c, s, t);
    if actions == [] {
      OnlyOwnerActive(c, s, t);
    } else {
      ActivatedStays(c, s, actions[0], t);
      StepKeepsInv(c, s, actions[0]);
      LateLookupIsCallable(c, Apply(c, s, actions[0]), actions[1..], t);
    }
  }

  /**
   * Once such a lookup finds no active worker, none ever comes back, and the call stays
   * admissible without an id.
   */
  lemma {:induction false} NoneStaysNone(c: Config, s: State, actions: seq<Action>, t: TaskId)
    requires Inv(c, s) && WasActivated(s, t) && ActiveOf(s.db, t) == {}
    ensures var s' := Run(c, s, actions); ActiveOf(s'.db, t) == {} && CanName(s', t, None)
    decreases |actions|
  {
    if actions == [] {
      OnlyOwnerActive(c, s, t);
    } else {
      NoneStepsToNone(c, s, actions[0], t);
      ActivatedStays(c, s, actions[0], t);
      StepKeepsInv(c, s, actions[0]);
      NoneStaysNone(c, Apply(c, s, actions[0]), actions[1..], t);
    }
  }

  lemma NoneStepsToNone(c: Config, s: State, a: Action, t: TaskId)
    requires Rows(s) && OwnerOk(s) && WasActivated(s, t) && ActiveOf(s.db, t) == {}
    ensures ActiveOf(Apply(c, s, a).db, t) == {}
  {
    if a.Activate? {
      NotActivatedAgain(c, s, a.w, a.now, a.storeOk, t);
    } else if a.Commit? {
      CommitOpensNone(c, s, a.t, a.now, a.storeOk, t);
    } else if a.Claim? {
      ClaimOpensNone(c, s, a.k, a.ids, a.now, t);
    } else {
      OthersOpenNone(c, s, a, t);
    }
  }

  lemma ClaimOpensNone(c: Config, s: State, k: TickId, ids: map<TaskId, WorkerId>, now: int, t: TaskId)
    ensures ActiveOf(DoClaim(c, s, k, ids, now).db, t) == ActiveOf(s.db, t)
  {
    ClaimableRows(s.db, c.maxActive);
  }

  /** The attempt that is activated speaks for its task, and that of `t` has been activated already. */
  lemma NotActivatedAgain(c: Config, s: State, w: WorkerId, now: int, storeOk: bool, t: TaskId)
    requires OwnerOk(s) && WasActivated(s, t) && ActiveOf(s.db, t) == {}
    ensures ActiveOf(DoActivate(c, s, w, now, storeOk).db, t) == {}
  {
    if w in s.attempts && s.attempts[w].pc.Registered? {
      assert s.attempts[w].task in s.owner && s.owner[s.attempts[w].task] == w;
      assert s.attempts[w].task != t;
    }
    var db' := DoActivate(c, s, w, now, storeOk).db;
    forall x | x in db'.workers && db'.workers[x].ended.None? ensures db'.workers[x].task != t {
      if x in s.db.workers && s.db.workers[x].ended.None? {
        assert s.db.workers[x].task == t <==> x in ActiveOf(s.db, t);
      }
    }
  }

  lemma ActiveWasActivated(c: Config, s: State, t: TaskId)
    requires OwnerOk(s) && Rows(s) && (ActiveOf(s.db, t) != {} || WasActivated(s, t))
    ensures WasActivated(s, t)
  {
    if ActiveOf(s.db, t) != {} {
      var w :| w in ActiveOf(s.db, t);
      assert RowOk(s, w);
    }
  }

  lemma OnlyOwnerActive(c: Config, s: State, t: TaskId)
    requires OwnerOk(s) && Rows(s) && WasActivated(s, t)
    ensures ActiveOf(s.db, t) <= {s.owner[t]}
    ensures ActiveOf(s.db, t) == {} ==> CanName(s, t, None)
  {
    forall w | w in ActiveOf(s.db, t) ensures w == s.owner[t] {
      assert RowOk(s, w);
    }
    if ActiveOf(s.db, t) == {} {
      forall w | w in s.db.workers && s.db.workers[w].task == t ensures s.db.workers[w].ended.Some? {
        assert w !in ActiveOf(s.db, t);
      }
    }
  }

  lemma NameStays(c: Config, s: State, a: Action, t: TaskId, w: WorkerId)
    requires CanName(s, t, Some(w))
    ensures CanName(Apply(c, s, a), t, Some(w))
  {
    if a.Claim? {
      ClaimFrame(c, s, a.k, a.ids, a.now, w);
    } else if OfAttempt(a) {
      AttemptShape(c, s, a);
    } else if !a.Restart? {
      OtherFrame(c, s, a);
    }
  }

  lemma ActivatedStays(c: Config, s: State, a: Action, t: TaskId)
    requires Standings(s) && WasActivated(s, t)
    ensures var s' := Apply(c, s, a); WasActivated(s', t) && s'.owner[t] == s.owner[t]
  {
    FinishedStays(c, s, a, s.owner[t]);
    if a.Claim? {
      ClaimKeepsOwner(c, s, a.k, a.ids, a.now, t);
    } else if OfAttempt(a) {
      AttemptShape(c, s, a);
    } else {
      OtherOwner(c, s, a);
    }
  }

  lemma ClaimKeepsOwner(c: Config, s: State, k: TickId, ids: map<TaskId, WorkerId>, now: int, t: TaskId)
    requires Standings(s) && WasActivated(s, t)
    ensures var s' := DoClaim(c, s, k, ids, now); t in s'.owner && s'.owner[t] == s.owner[t]
  {
    ClaimCases(c, s, k, ids, now);
    var s' := DoClaim(c, s, k, ids, now);
    if s' != s {
      var taken := Elements(Claimable(s.db, c.maxActive));
      ClaimHasShape(c, s, taken, k, ids, now, s');
      ClaimOwners(s, taken, k, s');
    }
  }

  lemma OtherOwner(c: Config, s: State, a: Action)
    requires !OfAttempt(a) && !a.Claim?
    ensures Apply(c, s, a).owner == s.owner
  {
  }
}
