/**
 * How a queued task moves in the queue.  Claims bring it forward.  The one thing that can
 * set it back is a task that enters the queue under an older stamp: a submission draws its
 * stamps when it is validated, and its rows are inserted later.
 */
module Fairness {
  import opened Basics
  import opened Lifecycle
  import opened Tables
  import opened Queueing
  import opened Protocol
  import opened Invariant
  import opened Preservation
  import opened Theorems

  datatype Entry = Entry(task: TaskId, stamp: int)

  /** The task a step puts into the queue, and the stamp it gets there. */
  function Queues(c: Config, s: State, a: Action): Option<Entry> {
    match a
    case CreateTask(u, row) =>
      if u !in s.used && u !in s.db.tasks && row.state.Queued? then Some(Entry(u, row.updated)) else None
    case Settle(w, now, storeOk) =>
      if Requeues(c, s, w, storeOk) then Some(Entry(s.attempts[w].task, now)) else None
    case _ => None
  }

  /** A settling attempt gives its claim back to the queue, and still holds it. */
  predicate Requeues(c: Config, s: State, w: WorkerId, storeOk: bool) {
    && w in s.attempts && s.attempts[w].pc.Settling? && SettleTarget(s.attempts[w].pc).Queued?
    && (storeOk || !c.faults) && StateIs(s.db, s.attempts[w].task, Dispatching)
  }

  /** What enters the queue sorts before `t`. */
  predicate JumpsAhead(c: Config, s: State, a: Action, t: TaskId)
    requires t in s.db.tasks
  {
    && Queues(c, s, a).Some?
    && var e := Queues(c, s, a).value;
    && (e.stamp < s.db.tasks[t].updated || (e.stamp == s.db.tasks[t].updated && e.task < t))
  }

  // --- the main results ---

  /**
   * A task that stays queued is set back exactly by a step that queues another one under
   * an earlier place in (updated_at, id) order, and by one place.  Every claim that takes
   * others brings it forward by their number; no other step sets it back.
   */
  lemma RankStep(c: Config, s: State, a: Action, t: TaskId)
    requires Inv(c, s) && StateIs(s.db, t, Queued) && StateIs(Apply(c, s, a).db, t, Queued)
    ensures var rank, rank' := Rank(s.db, t), Rank(Apply(c, s, a).db, t);
      && (rank' > rank <==> JumpsAhead(c, s, a, t))
      && (JumpsAhead(c, s, a, t) ==> rank' == rank + 1)
      && (TakesSome(c, s, a) ==> rank' + |Claimable(s.db, c.maxActive)| == rank)
  {
    if TakesSome(c, s, a) {
      ClaimCases(c, s, a.k, a.ids, a.now);
      ClaimAdvances(s.db, c.maxActive, a.now, t);
    } else if JumpsAhead(c, s, a, t) {
      SetBack(c, s, a, t);
    } else {
      NotSetBack(c, s, a, t);
    }
  }

  /** `t` is queued in every state of this run. */
  predicate Waits(c: Config, s: State, actions: seq<Action>, t: TaskId)
    decreases |actions|
  {
    StateIs(s.db, t, Queued) && (actions != [] ==> Waits(c, Apply(c, s, actions[0]), actions[1..], t))
  }

  /** How often something entered the queue before `t` while `t` waited. */
  function Jumps(c: Config, s: State, actions: seq<Action>, t: TaskId): nat
    requires Waits(c, s, actions, t)
    decreases |actions|
  {
    if actions == [] then 0
    else (if JumpsAhead(c, s, actions[0], t) then 1 else 0) + Jumps(c, Apply(c, s, actions[0]), actions[1..], t)
  }

  function TakingClaims(c: Config, s: State, actions: seq<Action>): nat
    decreases |actions|
  {
    if actions == [] then 0
    else (if TakesSome(c, s, actions[0]) then 1 else 0) + TakingClaims(c, Apply(c, s, actions[0]), actions[1..])
  }

  /**
   * While a task waits it sees at most as many non-empty claims as tasks were ahead of it
   * at first or came to be ahead of it since.
   */
  lemma {:induction false} WaitingIsBounded(c: Config, s: State, actions: seq<Action>, t: TaskId)
    requires Inv(c, s) && Waits(c, s, actions, t)
    ensures StateIs(Run(c, s, actions).db, t, Queued)
    ensures Rank(Run(c, s, actions).db, t) + TakingClaims(c, s, actions) <= Rank(s.db, t) + Jumps(c, s, actions, t)
    decreases |actions|
  {
    if actions == [] {
    } else {
      StepKeepsInv(c, s, actions[0]);
      RankStep(c, s, actions[0], t);
      if TakesSome(c, s, actions[0]) { assert |Claimable(s.db, c.maxActive)| >= 1; }
      WaitingIsBounded(c, Apply(c, s, actions[0]), actions[1..], t);
    }
  }

  /** `t` is queued in every state of this run, and whatever enters the queue is stamped later than `t`. */
  predicate WaitsAmongPunctual(c: Config, s: State, actions: seq<Action>, t: TaskId)
    decreases |actions|
  {
    && StateIs(s.db, t, Queued)
    && (actions != [] ==>
          && (Queues(c, s, actions[0]).Some? ==> s.db.tasks[t].updated < Queues(c, s, actions[0]).value.stamp)
          && WaitsAmongPunctual(c, Apply(c, s, actions[0]), actions[1..], t))
  }

  /** With punctual stamps a waiting task is claimed within its rank plus one non-empty claims. */
  lemma PunctualQueueIsFair(c: Config, s: State, actions: seq<Action>, t: TaskId)
    requires Inv(c, s) && WaitsAmongPunctual(c, s, actions, t)
    ensures TakingClaims(c, s, actions) <= Rank(s.db, t)
  {
    NoJumps(c, s, actions, t);
    WaitingIsBounded(c, s, actions, t);
  }

  lemma {:induction false} NoJumps(c: Config, s: State, actions: seq<Action>, t: TaskId)
    requires WaitsAmongPunctual(c, s, actions, t)
    ensures Waits(c, s, actions, t) && Jumps(c, s, actions, t) == 0
    decreases |actions|
  {
    if actions == [] {
    } else {
      NoJumps(c, Apply(c, s, actions[0]), actions[1..], t);
    }
  }

  /**
   * Under a clock that never stands still: task 6 is validated at 9, task 5 at 10; task 5
   * is inserted first, and falls back when task 6 is inserted.
   */
  lemma LateInsertOvertakes(c: Config)
    ensures var s := Reached(c, [CreateTask(5, TaskRow(Queued, 10, false, None))]);
            var s' := Apply(c, s, CreateTask(6, TaskRow(Queued, 9, false, None)));
      && StateIs(s.db, 5, Queued) && Rank(s.db, 5) == 0
      && StateIs(s'.db, 5, Queued) && Rank(s'.db, 5) == 1
  {
    var row, late := TaskRow(Queued, 10, false, None), TaskRow(Queued, 9, false, None);
    var first := CreateTask(5, row);
    assert Run(c, Init(), [first]) == Run(c, Apply(c, Init(), first), []);
    var s := Reached(c, [first]);
    assert s == Init().(db := EmptyDb().(tasks := map[5 := row]), used := {5});
    assert Ahead(s.db, 5) == {};
    var s' := Apply(c, s, CreateTask(6, late));
    assert s'.db.tasks == map[5 := row, 6 := late];
    assert Ahead(s'.db, 5) == {6};
  }

  // --- proofs ---

  /** A task is newly queued only by the step that queues it, under that step's stamp. */
  lemma NewlyQueued(c: Config, s: State, a: Action, x: TaskId)
    requires Retires(s) && Reads(s)
    ensures StateIs(Apply(c, s, a).db, x, Queued) && !StateIs(s.db, x, Queued) ==>
      Queues(c, s, a) == Some(Entry(x, Apply(c, s, a).db.tasks[x].updated))
  {
    if x !in s.db.tasks {
      OnlyCreated(c, s, a, x);
    } else if StateIs(Apply(c, s, a).db, x, Queued) && !StateIs(s.db, x, Queued) {
      StateMoves(c, s, a, x);
      if a.Settle? {
        SettleQueues(c, s, a.w, a.now, a.storeOk, x);
      } else {
        NoVerdictQueues(s, a, x);
      }
    }
  }

  lemma OnlyCreated(c: Config, s: State, a: Action, x: TaskId)
    requires x !in s.db.tasks
    ensures StateIs(Apply(c, s, a).db, x, Queued) ==>
      Queues(c, s, a) == Some(Entry(x, Apply(c, s, a).db.tasks[x].updated))
  {
    if !IsTableStep(a) {
      KeysKept(c, s, a);
    }
  }

  lemma SettleQueues(c: Config, s: State, w: WorkerId, now: int, storeOk: bool, x: TaskId)
    requires var s' := DoSettle(c, s, w, now, storeOk); StateIs(s'.db, x, Queued) && !StateIs(s.db, x, Queued)
    ensures Requeues(c, s, w, storeOk) && s.attempts[w].task == x
    ensures DoSettle(c, s, w, now, storeOk).db.tasks[x].updated == now
  {
  }

  lemma NoVerdictQueues(s: State, a: Action, x: TaskId)
    requires Retires(s) && Reads(s)
    requires a.Commit? && a.t == x && x in s.retirements && s.retirements[x].pc.Judged?
    ensures s.retirements[x].pc.verdict != Some(Queued)
  {
    assert RetireOk(s, x) && ReadOk(s, x);
    VerdictIsTerminal(s, x);
  }

  /** What a queueing step writes: one row, which was not queued before. */
  lemma QueueingWrites(c: Config, s: State, a: Action)
    requires Queues(c, s, a).Some?
    ensures var e, db' := Queues(c, s, a).value, Apply(c, s, a).db;
      && !StateIs(s.db, e.task, Queued)
      && StateIs(db', e.task, Queued) && db'.tasks[e.task].updated == e.stamp
      && db'.tasks == s.db.tasks[e.task := db'.tasks[e.task]]
  {
  }

  lemma SetBack(c: Config, s: State, a: Action, t: TaskId)
    requires StateIs(s.db, t, Queued) && JumpsAhead(c, s, a, t)
    ensures t in Apply(c, s, a).db.tasks && Rank(Apply(c, s, a).db, t) == Rank(s.db, t) + 1
  {
    var e, db' := Queues(c, s, a).value, Apply(c, s, a).db;
    QueueingWrites(c, s, a);
    OneMoreAhead(s.db, db', t, e);
  }

  lemma OneMoreAhead(db: Db, db': Db, t: TaskId, e: Entry)
    requires StateIs(db, t, Queued) && !StateIs(db, e.task, Queued)
    requires StateIs(db', e.task, Queued) && db'.tasks[e.task].updated == e.stamp
    requires db'.tasks == db.tasks[e.task := db'.tasks[e.task]]
    requires e.stamp < db.tasks[t].updated || (e.stamp == db.tasks[t].updated && e.task < t)
    ensures t in db'.tasks && Rank(db', t) == Rank(db, t) + 1
  {
    assert Ahead(db', t) == Ahead(db, t) + {e.task};
  }

  lemma NotSetBack(c: Config, s: State, a: Action, t: TaskId)
    requires Retires(s) && Reads(s) && StateIs(s.db, t, Queued) && StateIs(Apply(c, s, a).db, t, Queued)
    requires !JumpsAhead(c, s, a, t)
    ensures Rank(Apply(c, s, a).db, t) <= Rank(s.db, t)
  {
    var db' := Apply(c, s, a).db;
    QueuedRowKept(c, s, a, t);
    forall x | x in Ahead(db', t) ensures x in Ahead(s.db, t) {
      if StateIs(s.db, x, Queued) {
        QueuedRowKept(c, s, a, x);
      } else {
        NewlyQueued(c, s, a, x);
      }
    }
    SubsetCard(Ahead(db', t), Ahead(s.db, t));
  }

  /** No step rewrites the row of a task that is and stays queued. */
  lemma QueuedRowKept(c: Config, s: State, a: Action, t: TaskId)
    requires Retires(s) && Reads(s) && StateIs(s.db, t, Queued) && StateIs(Apply(c, s, a).db, t, Queued)
    ensures Apply(c, s, a).db.tasks[t] == s.db.tasks[t]
  {
    if IsTableStep(a) {
      TableRowKept(c, s, a, t);
    } else if a.Settle? {
      SettleRowKept(c, s, a.w, a.now, a.storeOk, t);
    } else if a.Activate? {
      ActivateRowKept(c, s, a.w, a.now, a.storeOk, t);
    } else if a.Append? {
      assert Apply(c, s, a) == DoAppend(c, s, a.t, a.event);
    } else if a.Commit? {
      CommitRowKept(c, s, a.t, a.now, a.storeOk, t);
    } else {
      QuietDb(c, s, a);
    }
  }

  lemma SettleRowKept(c: Config, s: State, w: WorkerId, now: int, storeOk: bool, t: TaskId)
    requires StateIs(s.db, t, Queued)
    ensures var db' := DoSettle(c, s, w, now, storeOk).db; t in db'.tasks && db'.tasks[t] == s.db.tasks[t]
  {
  }

  lemma ActivateRowKept(c: Config, s: State, w: WorkerId, now: int, storeOk: bool, t: TaskId)
    requires StateIs(s.db, t, Queued)
    ensures var db' := DoActivate(c, s, w, now, storeOk).db; t in db'.tasks && db'.tasks[t] == s.db.tasks[t]
  {
  }

  lemma CommitRowKept(c: Config, s: State, u: TaskId, now: int, storeOk: bool, t: TaskId)
    requires Retires(s) && Reads(s) && StateIs(s.db, t, Queued)
        && StateIs(DoCommit(c, s, u, now, storeOk).db, t, Queued)
    ensures DoCommit(c, s, u, now, storeOk).db.tasks[t] == s.db.tasks[t]
  {
    if u == t && t in s.retirements && s.retirements[t].pc.Judged? {
      assert RetireOk(s, t) && ReadOk(s, t);
      VerdictIsTerminal(s, t);
    }
  }

  lemma TableRowKept(c: Config, s: State, a: Action, t: TaskId)
    requires IsTableStep(a) && StateIs(s.db, t, Queued) && StateIs(Apply(c, s, a).db, t, Queued)
    ensures Apply(c, s, a).db.tasks[t] == s.db.tasks[t]
  {
  }

  /** This step is a claim that took at least one task. */
  predicate TakesSome(c: Config, s: State, a: Action) {
    a.Claim? && Apply(c, s, a) != s && Claimable(s.db, c.maxActive) != []
  }
}
