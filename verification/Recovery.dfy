/**
 * Restart recovery: one pass over the live tasks of an arbitrary database.  From a state
 * of the protocol the whole pass is a run of the protocol.
 */
module RecoveryModel {
  import opened Basics
  import opened Lifecycle
  import opened Tables
  import opened StoreModel
  import opened Protocol
  import opened Invariant
  import opened Preservation
  import opened Theorems
  import opened RecoverySteps

  /** What recovery can find out about a live task's external worker. */
  datatype Sight =
    | Irrecoverable  // not a tmux task, no workspace recorded, or its host is not configured
    | Unreachable    // the host did not answer: the worker's state is unknown
    | NoPane
    | PaneFound

  ghost predicate SameTask(db: Db, db': Db, t: TaskId) {
    && (t in db.tasks <==> t in db'.tasks)
    && (t in db.tasks ==> db'.tasks[t] == db.tasks[t])
    && ActiveOf(db', t) == ActiveOf(db, t)
    && (forall w :: w in ActiveOf(db, t) ==> db'.workers[w] == db.workers[w])
  }

  ghost predicate OnlyTask(db: Db, db': Db, t: TaskId) {
    forall u :: u != t ==> SameTask(db, db', u)
  }

  ghost predicate IsNewestActive(db: Db, t: TaskId, w: WorkerId) {
    w in ActiveOf(db, t) && forall x :: x in ActiveOf(db, t) ==> db.workers[x].started <= db.workers[w].started
  }

  /** `worker` is the answer of a search for the task's active worker. */
  ghost predicate Found(db: Db, t: TaskId, worker: Option<WorkerId>) {
    if worker.None? then ActiveOf(db, t) == {} else IsNewestActive(db, t, worker.value)
  }

  /** The outcome for one task, as a function of what was there and what was seen. */
  ghost predicate Recovered(db: Db, db': Db, handles: map<TaskId, WorkerId>, seen: Sight, t: TaskId) {
    if !IsLive(db, t) || seen.Unreachable? then
      SameTask(db, db', t) && t !in handles
    else if seen.PaneFound? && ActiveOf(db, t) != {} then
      SameTask(db, db', t) && t in handles && IsNewestActive(db, t, handles[t])
    else
      && StateIs(db', t, Lost) && t !in handles
      && (|ActiveOf(db, t)| <= 1 ==> ActiveOf(db', t) == {})
  }

  class Recovery {
    const store: Store
    var handles: map<TaskId, WorkerId>

    constructor (store: Store)
      ensures this.store == store && handles == map[]
    {
      this.store, handles := store, map[];
    }

    /** Retire a live task as LOST; nothing else runs yet, so the steps are not interrupted. */
    method MarkLost(
        t: TaskId, ghost seen: Sight, worker: Option<WorkerId>, now: int,
        ghost c: Config, ghost s: State, ghost s1: State)
      returns (ghost s': State)
      requires IsLive(store.View(), t) && t !in handles && Found(store.View(), t, worker)
      requires !seen.Unreachable? && !(seen.PaneFound? && worker.Some?)
      modifies this, store
      ensures handles == old(handles)
      ensures Recovered(old(store.View()), store.View(), handles, seen, t)
      ensures OnlyTask(old(store.View()), store.View(), t)
      ensures store.View().log == old(store.View().log) + [Event(old(store.View().nextEvent), t, Remark(0))]
      ensures Follows(c, s, s1, old(store.View()), old(handles)) ==> Follows(c, s, s', store.View(), handles)
    {
      s' := s1;
      if Follows(c, s, s1, store.View(), handles) {
        s' := LostIsRetirement(c, s, s1, t, worker, now);
      }
      LostRecovers(store.View(), t, worker, now, handles, seen);
      assert handles - {t} == handles;
      var reply := store.FinishWorker(t, worker, Lost, None, now);
      handles := handles - {t};
      var noted := store.AppendEvent(t, Remark(0), 1);
    }

    /**
     * Reattach what can be reached and mark the rest LOST.  Every task ends as
     * `Recovered` says, and the result counts the registered handles.  From a reached
     * state `s` of the protocol, its steps lead to a state `s'` with this database and
     * these handles, so all that holds of runs holds afterwards.
     */
    method ReconcileRunning(sight: TaskId -> Sight, now: int, ghost c: Config, ghost s: State)
      returns (n: nat, ghost s': State)
      requires handles == map[]
      modifies this, store
      ensures Leads(c, Init(), s) && Mirrors(s, old(store.View()), map[]) ==> Follows(c, s, s', store.View(), handles)
      ensures forall t :: Recovered(old(store.View()), store.View(), handles, sight(t), t)
      ensures n == |handles|
    {
      ghost var before := store.View();
      var ids := ById(store.tasks.Keys);
      ByIdSorts(store.tasks.Keys);
      n, s' := 0, s;
      if Leads(c, Init(), s) && Mirrors(s, before, map[]) { FollowsAtFirst(c, s); }
      for i := 0 to |ids|
        invariant n == |handles|
        invariant Leads(c, Init(), s) && Mirrors(s, before, map[]) ==> Follows(c, s, s', store.View(), handles)
        invariant SoFar(before, store.View(), handles, sight, Elements(ids[..i]))
      {
        ghost var db := store.View();
        ghost var known := handles;
        assert ids[i] in Elements(ids) && ids[i] !in Elements(ids[..i]);
        n, s' := RecoverOne(ids[i], sight(ids[i]), n, now, c, s, s');
        ElementsSnoc(ids, i);
        OneMore(before, db, store.View(), known, handles, sight, Elements(ids[..i]), ids[i]);
      }
      assert ids[..|ids|] == ids;
      AllDone(before, store.View(), handles, sight);
    }

    method RecoverOne(
        t: TaskId, seen: Sight, n: nat, now: int, ghost c: Config, ghost s: State, ghost s1: State)
      returns (n': nat, ghost s': State)
      requires t in store.tasks && t !in handles && n == |handles|
      modifies this, store
      ensures n' == |handles|
      ensures Recovered(old(store.View()), store.View(), handles, seen, t)
      ensures OnlyTask(old(store.View()), store.View(), t)
      ensures handles - {t} == old(handles)
      ensures Follows(c, s, s1, old(store.View()), old(handles)) ==> Follows(c, s, s', store.View(), handles)
    {
      n', s' := n, s1;
      assert handles - {t} == handles;
      if !store.tasks[t].state.Live() {
        return;
      }
      var worker := store.ActiveWorkerId(t);
      assert Found(store.View(), t, worker);
      n', s' := Decide(t, seen, worker, n, now, c, s, s1);
    }

    /** What the search for the task's pane and its active worker row lead to. */
    method Decide(
        t: TaskId, seen: Sight, worker: Option<WorkerId>, n: nat, now: int,
        ghost c: Config, ghost s: State, ghost s1: State)
      returns (n': nat, ghost s': State)
      requires IsLive(store.View(), t) && t !in handles && n == |handles| && Found(store.View(), t, worker)
      modifies this, store
      ensures n' == |handles|
      ensures Recovered(old(store.View()), store.View(), handles, seen, t)
      ensures OnlyTask(old(store.View()), store.View(), t)
      ensures handles - {t} == old(handles)
      ensures Follows(c, s, s1, old(store.View()), old(handles)) ==> Follows(c, s, s', store.View(), handles)
    {
      n', s' := n, s1;
      assert handles - {t} == handles;
      UnchangedSame(store.View());
      if seen.Unreachable? {
        return;
      }
      if seen.PaneFound? && worker.Some? {
        s' := Register(t, worker.value, c, s, s1);
        n' := n + 1;
        return;
      }
      s' := MarkLost(t, seen, worker, now, c, s, s1);
    }

    method Register(t: TaskId, w: WorkerId, ghost c: Config, ghost s: State, ghost s1: State) returns (ghost s': State)
      requires IsLive(store.View(), t) && IsNewestActive(store.View(), t, w) && t !in handles
      modifies this`handles
      ensures handles == old(handles)[t := w]
      ensures Recovered(store.View(), store.View(), handles, PaneFound, t) && OnlyTask(store.View(), store.View(), t)
      ensures Follows(c, s, s1, store.View(), old(handles)) ==> Follows(c, s, s', store.View(), handles)
    {
      UnchangedSame(store.View());
      s' := s1;
      if Follows(c, s, s1, store.View(), handles) {
        s' := Reattached(c, s, s1, t, w);
      }
      handles := handles[t := w];
    }
  }

  lemma UnchangedSame(db: Db)
    ensures forall t :: SameTask(db, db, t) && OnlyTask(db, db, t)
  {
  }

  lemma LostRecovers(
      db: Db, t: TaskId, worker: Option<WorkerId>, now: int, handles: map<TaskId, WorkerId>, seen: Sight)
    requires IsLive(db, t) && t !in handles && Found(db, t, worker)
    requires !seen.Unreachable? && !(seen.PaneFound? && worker.Some?)
    ensures Recovered(db, LostAndNoted(db, t, worker, now), handles, seen, t)
    ensures OnlyTask(db, LostAndNoted(db, t, worker, now), t)
    ensures LostAndNoted(db, t, worker, now).log == db.log + [Event(db.nextEvent, t, Remark(0))]
  {
    EndsActive(db, t, worker, now);
    NotedKeeps(db, t, worker, now);
  }

  /** The remark changes nothing but the log. */
  lemma NotedKeeps(db: Db, t: TaskId, worker: Option<WorkerId>, now: int)
    ensures var db' := FinishWorker(db, t, worker, Lost, None, now).After(db);
      LostAndNoted(db, t, worker, now) == db'.(
        log := LostAndNoted(db, t, worker, now).log, nextEvent := LostAndNoted(db, t, worker, now).nextEvent)
  {
  }

  lemma EndsActive(db: Db, t: TaskId, worker: Option<WorkerId>, now: int)
    requires IsLive(db, t)
    requires worker.None? ==> ActiveOf(db, t) == {}
    requires worker.Some? ==> worker.value in ActiveOf(db, t)
    ensures var outcome := FinishWorker(db, t, worker, Lost, None, now);
      && outcome.Committed? && StateIs(outcome.db, t, Lost)
      && (|ActiveOf(db, t)| <= 1 ==> ActiveOf(outcome.db, t) == {})
      && (forall u :: u != t ==> SameTask(db, outcome.db, u))
  {
    var db' := FinishWorker(db, t, worker, Lost, None, now).db;
    if worker.Some? {
      var w := worker.value;
      assert ActiveOf(db', t) == ActiveOf(db, t) - {w};
      if |ActiveOf(db, t)| <= 1 {
        assert |ActiveOf(db, t) - {w}| == 0;
      }
      forall u | u != t ensures SameTask(db, db', u) {
        assert ActiveOf(db', u) == ActiveOf(db, u);
      }
    } else {
      forall u ensures ActiveOf(db', u) == ActiveOf(db, u) {
      }
    }
  }

  /** The tasks in `done` are recovered, the others not yet touched. */
  ghost predicate SoFar(db: Db, db': Db, handles: map<TaskId, WorkerId>, sight: TaskId -> Sight, done: set<TaskId>) {
    && (forall t :: t in done ==> Recovered(db, db', handles, sight(t), t))
    && (forall t :: t !in done ==> SameTask(db, db', t) && t !in handles)
  }

  lemma OneMore(
      a: Db, b: Db, c: Db, known: map<TaskId, WorkerId>, handles: map<TaskId, WorkerId>,
      sight: TaskId -> Sight, done: set<TaskId>, t: TaskId)
    requires SoFar(a, b, known, sight, done) && t !in done
    requires Recovered(b, c, handles, sight(t), t) && handles - {t} == known
    requires OnlyTask(b, c, t)
    ensures SoFar(a, c, handles, sight, done + {t})
  {
    SameThenRecovered(a, b, c, handles, sight(t), t);
    forall u | u != t
      ensures u in done ==> Recovered(a, c, handles, sight(u), u)
      ensures u !in done ==> SameTask(a, c, u) && u !in handles
    {
      assert u in handles <==> u in handles - {t};
      assert SameTask(b, c, u);
      if u !in done {
        assert SameTask(a, b, u);
        SameTwice(a, b, c, u);
      }
      if u in done {
        assert u in handles ==> handles[u] == (handles - {t})[u];
        RecoveredThenSame(a, b, c, known, handles, sight(u), u);
      }
    }
  }

  lemma AllDone(db: Db, db': Db, handles: map<TaskId, WorkerId>, sight: TaskId -> Sight)
    requires SoFar(db, db', handles, sight, db.tasks.Keys)
    ensures forall t :: Recovered(db, db', handles, sight(t), t)
  {
  }

  lemma SameTwice(a: Db, b: Db, c: Db, t: TaskId)
    requires SameTask(a, b, t) && SameTask(b, c, t)
    ensures SameTask(a, c, t)
  {
  }

  lemma SameThenRecovered(a: Db, b: Db, c: Db, handles: map<TaskId, WorkerId>, seen: Sight, t: TaskId)
    requires SameTask(a, b, t) && Recovered(b, c, handles, seen, t)
    ensures Recovered(a, c, handles, seen, t)
  {
  }

  lemma RecoveredThenSame(
      a: Db, b: Db, c: Db, known: map<TaskId, WorkerId>, handles: map<TaskId, WorkerId>, seen: Sight, t: TaskId)
    requires Recovered(a, b, known, seen, t) && SameTask(b, c, t)
    requires (t in known <==> t in handles) && (t in known ==> handles[t] == known[t])
    ensures Recovered(a, c, handles, seen, t)
  {
  }
}
