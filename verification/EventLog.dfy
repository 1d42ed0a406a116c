/** The pruned event log against the log nothing was ever removed from. */
module EventLog {
  import opened Basics
  import opened Tables

  /** What the store's callers do to the log. */
  datatype LogWrite =
    | Append(task: TaskId, kind: EventKind)        // append_event
    | Verdict(task: TaskId, passed: bool)          // finish_worker's evaluation event
    | Sweep(task: TaskId)                          // mark_stale_dispatching_lost
    | Delete(task: TaskId)

  function Keep(retention: int): nat {
    if retention < 1 then 1 else retention
  }

  /** The store: an append for an unknown task is rolled back. */
  function Step(db: Db, op: LogWrite, retention: int): Db {
    match op
    case Append(t, kind) => AppendEvent(db, t, kind, retention).After(db)
    case Verdict(t, passed) => Insert(db, t, Evaluation(passed))
    case Sweep(t) => Insert(db, t, DispatchLost)
    case Delete(t) => DeleteTask(db, t)
  }

  function Replay(db: Db, ops: seq<LogWrite>, retention: int): Db {
    if ops == [] then db else Step(Replay(db, ops[..|ops| - 1], retention), ops[|ops| - 1], retention)
  }

  /** The same writes with unlimited retention. */
  function FullStep(db: Db, op: LogWrite): Db {
    match op
    case Append(t, kind) => if t in db.tasks then Insert(db, t, kind) else db
    case Verdict(t, passed) => Insert(db, t, Evaluation(passed))
    case Sweep(t) => Insert(db, t, DispatchLost)
    case Delete(t) => DeleteTask(db, t)
  }

  function FullReplay(db: Db, ops: seq<LogWrite>): Db {
    if ops == [] then db else FullStep(FullReplay(db, ops[..|ops| - 1]), ops[|ops| - 1])
  }

  /** An event stays exactly when it is no status, or fewer than `n` newer statuses of its task follow. */
  predicate Wanted(e: Event, later: seq<Event>, n: nat) {
    !e.kind.Status? || |StatusEvents(later, e.task)| < n
  }

  function Pruned(log: seq<Event>, n: nat): (r: seq<Event>) {
    if log == [] then []
    else (if Wanted(log[0], log[1..], n) then [log[0]] else []) + Pruned(log[1..], n)
  }

  /** Pruning for one task only, which is what one append does. */
  function PrunedFor(log: seq<Event>, t: TaskId, n: nat): (r: seq<Event>) {
    if log == [] then []
    else
      (if log[0].task != t || Wanted(log[0], log[1..], n) then [log[0]] else []) + PrunedFor(log[1..], t, n)
  }

  ghost predicate IdsGrow(log: seq<Event>, bound: nat) {
    && (forall i, j :: 0 <= i < j < |log| ==> log[i].id < log[j].id)
    && (forall i :: 0 <= i < |log| ==> log[i].id < bound)
  }

  // --- the main results ---

  /**
   * However many writes are made, and in whatever order, the stored log is the
   * full log without the statuses that have `Keep(retention)` newer ones of
   * their task; nothing else is lost, reordered or altered.
   */
  lemma {:induction false} StoredLogIsPrunedHistory(db: Db, ops: seq<LogWrite>, retention: int)
    requires db.log == []
    ensures var full := FullReplay(db, ops);
            && Replay(db, ops, retention) == full.(log := Pruned(full.log, Keep(retention)))
            && IdsGrow(full.log, full.nextEvent)
  {
    if ops == [] {
    } else {
      var front := ops[..|ops| - 1];
      StoredLogIsPrunedHistory(db, front, retention);
      StepPrunes(FullReplay(db, front), ops[|ops| - 1], retention);
    }
  }

  /** Each task's stored statuses are its newest `Keep(retention)`, oldest first. */
  lemma StatusRetention(db: Db, ops: seq<LogWrite>, retention: int, t: TaskId)
    requires db.log == []
    ensures StatusEvents(Replay(db, ops, retention).log, t)
         == Newest(StatusEvents(FullReplay(db, ops).log, t), Keep(retention))
  {
    StoredLogIsPrunedHistory(db, ops, retention);
    PrunedStatuses(FullReplay(db, ops).log, t, Keep(retention));
  }

  /** Events of every other kind are all there, in order. */
  function Others(log: seq<Event>): (r: seq<Event>) {
    if log == [] then []
    else (if log[0].kind.Status? then [] else [log[0]]) + Others(log[1..])
  }

  lemma OthersKept(db: Db, ops: seq<LogWrite>, retention: int)
    requires db.log == []
    ensures Others(Replay(db, ops, retention).log) == Others(FullReplay(db, ops).log)
  {
    StoredLogIsPrunedHistory(db, ops, retention);
    PrunedOthers(FullReplay(db, ops).log, Keep(retention));
  }

  /** `status_events`: the newest `limit` statuses; SQLite reads a negative limit as none. */
  function StatusWindow(log: seq<Event>, t: TaskId, limit: int): seq<Event> {
    if limit < 0 then StatusEvents(log, t) else Newest(StatusEvents(log, t), limit)
  }

  lemma WindowIsNewest(db: Db, ops: seq<LogWrite>, retention: int, t: TaskId, limit: int)
    requires db.log == []
    ensures StatusWindow(Replay(db, ops, retention).log, t, limit)
         == Newest(StatusEvents(FullReplay(db, ops).log, t),
                   if 0 <= limit < Keep(retention) then limit else Keep(retention))
  {
    StatusRetention(db, ops, retention, t);
    NewestTwice(
      StatusEvents(FullReplay(db, ops).log, t), Keep(retention), if limit < 0 then Keep(retention) else limit);
  }

  lemma NewestTwice(s: seq<Event>, a: nat, b: nat)
    ensures Newest(Newest(s, a), b) == Newest(s, if b < a then b else a)
  {
  }

  /** `latest_status_by_project` for one task: the status event with the largest id. */
  function LatestStatus(log: seq<Event>, t: TaskId): (r: Option<Event>) {
    if log == [] then None
    else
      var best := LatestStatus(log[1..], t);
      if IsStatusOf(log[0], t) && (best.None? || best.value.id <= log[0].id) then Some(log[0]) else best
  }

  /** Retention can never change a task's latest status: it is the last one ever appended. */
  lemma LatestSurvives(db: Db, ops: seq<LogWrite>, retention: int, t: TaskId)
    requires db.log == []
    ensures var history := StatusEvents(FullReplay(db, ops).log, t);
            LatestStatus(Replay(db, ops, retention).log, t)
              == if history == [] then None else Some(history[|history| - 1])
  {
    StoredLogIsPrunedHistory(db, ops, retention);
    LatestOfPruned(FullReplay(db, ops).log, t, Keep(retention), FullReplay(db, ops).nextEvent);
  }

  lemma LatestOfPruned(log: seq<Event>, t: TaskId, n: nat, bound: nat)
    requires n >= 1 && IdsGrow(log, bound)
    ensures var history := StatusEvents(log, t);
            LatestStatus(Pruned(log, n), t) == if history == [] then None else Some(history[|history| - 1])
  {
    PrunedGrows(log, n, bound);
    PrunedStatuses(log, t, n);
    LatestIsLast(Pruned(log, n), t, bound);
  }

  // --- what was said about one task ---

  function Kinds(log: seq<Event>, t: TaskId): (r: seq<EventKind>) {
    if log == [] then []
    else
      var front, last := Kinds(log[..|log| - 1], t), log[|log| - 1];
      if last.task == t then front + [last.kind] else front
  }

  predicate StillThere(known: bool, ops: seq<LogWrite>, t: TaskId) {
    known && Delete(t) !in ops
  }

  /** What the writes themselves say of a task since it was last deleted. */
  function Said(known: bool, ops: seq<LogWrite>, t: TaskId): seq<EventKind> {
    if ops == [] then []
    else
      var front, before := ops[..|ops| - 1], Said(known, ops[..|ops| - 1], t);
      match ops[|ops| - 1]
      case Append(u, kind) => if u == t && StillThere(known, front, t) then before + [kind] else before
      case Verdict(u, passed) => if u == t then before + [Evaluation(passed)] else before
      case Sweep(u) => if u == t then before + [DispatchLost] else before
      case Delete(u) => if u == t then [] else before
  }

  function Select(kinds: seq<EventKind>, statuses: bool): seq<EventKind> {
    if kinds == [] then []
    else
      var front, last := Select(kinds[..|kinds| - 1], statuses), kinds[|kinds| - 1];
      if last.Status? == statuses then front + [last] else front
  }

  /** In terms of the writes alone: the newest statuses said of a task, and all else said of it, are stored in order. */
  lemma WhatWasSaidIsStored(db: Db, ops: seq<LogWrite>, retention: int, t: TaskId)
    requires db.log == []
    ensures var stored, said := Kinds(Replay(db, ops, retention).log, t), Said(t in db.tasks, ops, t);
      && Select(stored, true) == Newest(Select(said, true), Keep(retention))
      && Select(stored, false) == Select(said, false)
  {
    var full, log := FullReplay(db, ops).log, Replay(db, ops, retention).log;
    FullLogIsSaid(db, ops, t);
    StatusRetention(db, ops, retention, t);
    OthersKept(db, ops, retention);
    KindsOfStatuses(log, t);
    KindsOfStatuses(full, t);
    KindsOfOthers(log, t);
    KindsOfOthers(full, t);
    NewestKinds(StatusEvents(full, t), t, Keep(retention));
  }

  // --- proofs ---

  lemma {:induction false} FullLogIsSaid(db: Db, ops: seq<LogWrite>, t: TaskId)
    requires db.log == []
    ensures Kinds(FullReplay(db, ops).log, t) == Said(t in db.tasks, ops, t)
  {
    if ops == [] {
    } else {
      var front, last := ops[..|ops| - 1], ops[|ops| - 1];
      FullLogIsSaid(db, front, t);
      FullKnows(db, front, t);
      SaidNext(FullReplay(db, front), last, t);
    }
  }

  lemma {:induction false} FullKnows(db: Db, ops: seq<LogWrite>, t: TaskId)
    ensures t in FullReplay(db, ops).tasks <==> StillThere(t in db.tasks, ops, t)
  {
    if ops == [] {
    } else {
      FullKnows(db, ops[..|ops| - 1], t);
      assert ops == ops[..|ops| - 1] + [ops[|ops| - 1]];
    }
  }

  lemma SaidNext(db: Db, op: LogWrite, t: TaskId)
    ensures Kinds(FullStep(db, op).log, t) ==
      match op
      case Append(u, kind) => Kinds(db.log, t) + if u == t && t in db.tasks then [kind] else []
      case Verdict(u, passed) => Kinds(db.log, t) + if u == t then [Evaluation(passed)] else []
      case Sweep(u) => Kinds(db.log, t) + if u == t then [DispatchLost] else []
      case Delete(u) => if u == t then [] else Kinds(db.log, t)
  {
    match op
    case Append(u, kind) => KindsSnoc(db, u, kind, t);
    case Verdict(u, passed) => KindsSnoc(db, u, Evaluation(passed), t);
    case Sweep(u) => KindsSnoc(db, u, DispatchLost, t);
    case Delete(u) => KindsWithout(db.log, u, t);
  }

  lemma KindsSnoc(db: Db, u: TaskId, kind: EventKind, t: TaskId)
    ensures Kinds(Insert(db, u, kind).log, t) == Kinds(db.log, t) + if u == t then [kind] else []
  {
    assert Insert(db, u, kind).log[..|db.log|] == db.log;
  }

  lemma {:induction false} KindsWithout(log: seq<Event>, gone: TaskId, t: TaskId)
    ensures Kinds(Without(log, gone), t) == if t == gone then [] else Kinds(log, t)
  {
    if log == [] {
    } else {
      KindsWithout(log[..|log| - 1], gone, t);
    }
  }

  lemma {:induction false} KindsOfStatuses(log: seq<Event>, t: TaskId)
    ensures Kinds(StatusEvents(log, t), t) == Select(Kinds(log, t), true)
    ensures forall e :: e in StatusEvents(log, t) ==> e.task == t
  {
    if log == [] {
    } else {
      KindsOfStatuses(log[..|log| - 1], t);
    }
  }

  lemma {:induction false} OthersSnoc(log: seq<Event>, e: Event)
    ensures Others(log + [e]) == if e.kind.Status? then Others(log) else Others(log) + [e]
  {
    if log == [] {
      assert log + [e] == [e] && Others([e][1..]) == [];
    } else {
      OthersSnoc(log[1..], e);
      OthersCons(log[0], log[1..] + [e]);
      assert log + [e] == [log[0]] + (log[1..] + [e]);
    }
  }

  lemma OthersCons(x: Event, rest: seq<Event>)
    ensures Others([x] + rest) == (if x.kind.Status? then [] else [x]) + Others(rest)
  {
    assert ([x] + rest)[1..] == rest;
  }

  lemma {:induction false} KindsOfOthers(log: seq<Event>, t: TaskId)
    ensures Kinds(Others(log), t) == Select(Kinds(log, t), false)
  {
    if log == [] {
    } else {
      KindsOfOthers(log[..|log| - 1], t);
      OthersSnoc(log[..|log| - 1], log[|log| - 1]);
      assert log == log[..|log| - 1] + [log[|log| - 1]];
    }
  }

  lemma {:induction false} KindsAre(log: seq<Event>, t: TaskId, kinds: seq<EventKind>)
    requires |kinds| == |log| && forall i :: 0 <= i < |log| ==> log[i].task == t && log[i].kind == kinds[i]
    ensures Kinds(log, t) == kinds
  {
    if log == [] {
    } else {
      KindsAre(log[..|log| - 1], t, kinds[..|log| - 1]);
      assert kinds == kinds[..|log| - 1] + [kinds[|log| - 1]];
    }
  }

  lemma NewestKinds(log: seq<Event>, t: TaskId, n: nat)
    requires forall i :: 0 <= i < |log| ==> log[i].task == t
    ensures Kinds(Newest(log, n), t) == Newest(Kinds(log, t), n)
  {
    var kinds := seq(|log|, i requires 0 <= i < |log| => log[i].kind);
    KindsAre(log, t, kinds);
    KindsAre(Newest(log, n), t, Newest(kinds, n));
  }

  lemma StepPrunes(full: Db, op: LogWrite, retention: int)
    requires IdsGrow(full.log, full.nextEvent)
    ensures var db := full.(log := Pruned(full.log, Keep(retention)));
            var full' := FullStep(full, op);
            && Step(db, op, retention) == full'.(log := Pruned(full'.log, Keep(retention)))
            && IdsGrow(full'.log, full'.nextEvent)
  {
    match op
    case Append(t, kind) =>
      if t in full.tasks && kind.Status? {
        StatusPrunes(full, t, kind, retention);
      } else if t in full.tasks {
        RecordPrunes(full, t, kind, Keep(retention));
      }
    case Verdict(t, passed) => RecordPrunes(full, t, Evaluation(passed), Keep(retention));
    case Sweep(t) => RecordPrunes(full, t, DispatchLost, Keep(retention));
    case Delete(t) =>
      WithoutPruned(full.log, t, Keep(retention));
      WithoutGrows(full.log, t, full.nextEvent);
  }

  lemma StatusPrunes(full: Db, t: TaskId, kind: EventKind, retention: int)
    requires IdsGrow(full.log, full.nextEvent) && t in full.tasks && kind.Status?
    ensures var n := Keep(retention);
            var full' := Insert(full, t, kind);
      && AppendEvent(full.(log := Pruned(full.log, n)), t, kind, retention)
           == Committed(full'.(log := Pruned(full'.log, n)))
      && IdsGrow(full'.log, full'.nextEvent)
  {
    AppendPrunes(full.log, Event(full.nextEvent, t, kind), Keep(retention));
    GrowsSnoc(full.log, Event(full.nextEvent, t, kind), full.nextEvent + 1);
  }

  lemma RecordPrunes(full: Db, t: TaskId, kind: EventKind, n: nat)
    requires IdsGrow(full.log, full.nextEvent) && !kind.Status?
    ensures var full' := Insert(full, t, kind);
      && Insert(full.(log := Pruned(full.log, n)), t, kind) == full'.(log := Pruned(full'.log, n))
      && IdsGrow(full'.log, full'.nextEvent)
  {
    NothingNewer(full.log, Event(full.nextEvent, t, kind), n);
    GrowsSnoc(full.log, Event(full.nextEvent, t, kind), full.nextEvent + 1);
  }

  lemma AppendPrunes(log: seq<Event>, e: Event, n: nat)
    requires n >= 1 && e.kind.Status? && IdsGrow(log, e.id)
    ensures var grown := Pruned(log, n) + [e];
            DropStatus(grown, e.task, RetentionCutoff(grown, e.task, n)) == Pruned(log + [e], n)
  {
    PrunedSnoc(log, e, n);
    PrunedGrows(log, n, e.id);
    CutoffPrunes(Pruned(log, n) + [e], e.task, n, e.id + 1);
  }

  lemma {:induction false} StatusEventsConcat(a: seq<Event>, b: seq<Event>, t: TaskId)
    ensures StatusEvents(a + b, t) == StatusEvents(a, t) + StatusEvents(b, t)
  {
    if b == [] {
      assert a + b == a;
    } else {
      assert (a + b)[..|a + b| - 1] == a + b[..|b| - 1];
      StatusEventsConcat(a, b[..|b| - 1], t);
    }
  }

  lemma StatusEventsCons(log: seq<Event>, t: TaskId)
    requires log != []
    ensures StatusEvents(log, t)
         == (if IsStatusOf(log[0], t) then [log[0]] else []) + StatusEvents(log[1..], t)
  {
    assert log == [log[0]] + log[1..];
    StatusEventsConcat([log[0]], log[1..], t);
  }

  lemma {:induction false} DropStatusConcat(a: seq<Event>, b: seq<Event>, t: TaskId, cutoff: int)
    ensures DropStatus(a + b, t, cutoff) == DropStatus(a, t, cutoff) + DropStatus(b, t, cutoff)
  {
    if b == [] {
      assert a + b == a;
    } else {
      assert (a + b)[..|a + b| - 1] == a + b[..|b| - 1];
      DropStatusConcat(a, b[..|b| - 1], t, cutoff);
    }
  }

  lemma {:induction false} WithoutConcat(a: seq<Event>, b: seq<Event>, t: TaskId)
    ensures Without(a + b, t) == Without(a, t) + Without(b, t)
  {
    if b == [] {
      assert a + b == a;
    } else {
      assert (a + b)[..|a + b| - 1] == a + b[..|b| - 1];
      WithoutConcat(a, b[..|b| - 1], t);
    }
  }

  lemma NewestCons(x: Event, s: seq<Event>, n: nat)
    ensures Newest([x] + s, n) == if |s| < n then [x] + Newest(s, n) else Newest(s, n)
  {
  }

  lemma {:induction false} PrunedStatuses(log: seq<Event>, t: TaskId, n: nat)
    ensures StatusEvents(Pruned(log, n), t) == Newest(StatusEvents(log, t), n)
  {
    if log == [] {
    } else {
      PrunedStatuses(log[1..], t, n);
      StatusEventsCons(log, t);
      PrunedStatusesStep(log[0], log[1..], Pruned(log[1..], n), t, n);
    }
  }

  lemma PrunedStatusesStep(x: Event, later: seq<Event>, tail: seq<Event>, t: TaskId, n: nat)
    requires StatusEvents(tail, t) == Newest(StatusEvents(later, t), n)
    ensures StatusEvents((if Wanted(x, later, n) then [x] else []) + tail, t)
         == Newest((if IsStatusOf(x, t) then [x] else []) + StatusEvents(later, t), n)
  {
    var s := StatusEvents(later, t);
    if !IsStatusOf(x, t) {
      assert [] + s == s;
    }
    if Wanted(x, later, n) {
      StatusEventsCons([x] + tail, t);
      assert ([x] + tail)[1..] == tail;
      if IsStatusOf(x, t) {
        NewestCons(x, s, n);
      }
    } else {
      assert [] + tail == tail;
      if IsStatusOf(x, t) {
        NewestCons(x, s, n);
      }
    }
  }

  lemma {:induction false} PrunedOthers(log: seq<Event>, n: nat)
    ensures Others(Pruned(log, n)) == Others(log)
  {
    if log == [] {
    } else {
      PrunedOthers(log[1..], n);
      var x, rest := log[0], Pruned(log[1..], n);
      assert ([x] + rest)[1..] == rest;
      if Wanted(x, log[1..], n) {
        assert Pruned(log, n) == [x] + rest;
        assert Others([x] + rest) == (if x.kind.Status? then [] else [x]) + Others(rest);
      } else {
        assert Pruned(log, n) == rest;
      }
    }
  }

  lemma {:induction false} PrunedGrows(log: seq<Event>, n: nat, bound: nat)
    requires IdsGrow(log, bound)
    ensures IdsGrow(Pruned(log, n), bound)
    ensures log != [] ==> forall i :: 0 <= i < |Pruned(log, n)| ==> log[0].id <= Pruned(log, n)[i].id
  {
    if log == [] {
    } else {
      var x, later := log[0], log[1..];
      PrunedGrows(later, n, bound);
      var rest := Pruned(later, n);
      if later != [] {
        assert later[0] == log[1];
      }
      GrowsCons(x, rest, bound);
      assert Pruned(log, n) == (if Wanted(x, later, n) then [x] else []) + rest;
    }
  }

  lemma GrowsCons(x: Event, rest: seq<Event>, bound: nat)
    requires IdsGrow(rest, bound) && x.id < bound
    requires forall i :: 0 <= i < |rest| ==> x.id < rest[i].id
    ensures IdsGrow([x] + rest, bound)
  {
  }

  /** Pruning the whole extended log is pruning the stored one again for the arrival's task. */
  lemma {:induction false} PrunedSnoc(log: seq<Event>, e: Event, n: nat)
    requires n >= 1 && e.kind.Status?
    ensures Pruned(log + [e], n) == PrunedFor(Pruned(log, n) + [e], e.task, n)
  {
    if log == [] {
      assert log + [e] == [e] && Pruned(log, n) + [e] == [e];
    } else {
      var x, rest := log[0], log[1..];
      var tail := Pruned(rest, n);
      PrunedSnoc(rest, e, n);
      WantedThen(x, rest, e, n);
      assert log + [e] == [x] + (rest + [e]) && log == [x] + rest;
      PrunedCons(x, rest + [e], n);
      PrunedCons(x, rest, n);
      PrunedForCons(x, tail + [e], e.task, n);
      assert ([x] + tail) + [e] == [x] + (tail + [e]);
    }
  }

  lemma PrunedCons(x: Event, rest: seq<Event>, n: nat)
    ensures Pruned([x] + rest, n) == if Wanted(x, rest, n) then [x] + Pruned(rest, n) else Pruned(rest, n)
  {
    assert ([x] + rest)[1..] == rest;
  }

  lemma PrunedForCons(x: Event, rest: seq<Event>, t: TaskId, n: nat)
    ensures PrunedFor([x] + rest, t, n)
         == (if x.task != t || Wanted(x, rest, n) then [x] else []) + PrunedFor(rest, t, n)
  {
    assert ([x] + rest)[1..] == rest;
  }

  /** Whether `x` stays is the same question asked of the full log and of the stored one. */
  lemma WantedThen(x: Event, rest: seq<Event>, e: Event, n: nat)
    requires n >= 1
    ensures Wanted(x, rest + [e], n)
       <==> Wanted(x, rest, n) && (x.task != e.task || Wanted(x, Pruned(rest, n) + [e], n))
  {
    StatusEventsConcat(rest, [e], x.task);
    StatusEventsConcat(Pruned(rest, n), [e], x.task);
    PrunedStatuses(rest, x.task, n);
    StatusEventsCons([e], x.task);
    assert StatusEvents([e][1..], x.task) == [];
  }

  /** An arrival that is no status makes no stored event superfluous. */
  lemma {:induction false} NothingNewer(log: seq<Event>, e: Event, n: nat)
    requires !e.kind.Status?
    ensures Pruned(log + [e], n) == Pruned(log, n) + [e]
  {
    if log == [] {
    } else {
      assert (log + [e])[1..] == log[1..] + [e];
      NothingNewer(log[1..], e, n);
      StatusEventsConcat(log[1..], [e], log[0].task);
    }
  }

  /** `old + rest` is a log; deleting up to its cutoff prunes `rest` as counting newer statuses does. */
  lemma {:induction false} CutoffPrunesSuffix(before: seq<Event>, rest: seq<Event>, t: TaskId, n: nat, bound: nat)
    requires IdsGrow(before + rest, bound)
    ensures DropStatus(rest, t, RetentionCutoff(before + rest, t, n)) == PrunedFor(rest, t, n)
    decreases rest
  {
    if rest == [] {
    } else {
      var x, later := rest[0], rest[1..];
      var cutoff := RetentionCutoff(before + rest, t, n);
      assert (before + [x]) + later == before + rest;
      CutoffPrunesSuffix(before + [x], later, t, n, bound);
      assert rest == [x] + later;
      DropStatusConcat([x], later, t, cutoff);
      if IsStatusOf(x, t) {
        StatusEventsConcat(before, rest, t);
        StatusEventsCons(rest, t);
        StatusIdsGrow(before + rest, t, bound);
        var all := StatusEvents(before + rest, t);
        assert all[|StatusEvents(before, t)|] == x;
      }
    }
  }

  lemma CutoffPrunes(log: seq<Event>, t: TaskId, n: nat, bound: nat)
    requires IdsGrow(log, bound)
    ensures DropStatus(log, t, RetentionCutoff(log, t, n)) == PrunedFor(log, t, n)
  {
    assert [] + log == log;
    CutoffPrunesSuffix([], log, t, n, bound);
  }

  lemma {:induction false} StatusIdsGrow(log: seq<Event>, t: TaskId, bound: nat)
    requires IdsGrow(log, bound)
    ensures IdsGrow(StatusEvents(log, t), bound)
    ensures log != [] ==> forall e :: e in StatusEvents(log, t) ==> e.id <= log[|log| - 1].id
  {
    if log == [] {
    } else {
      var front := log[..|log| - 1];
      StatusIdsGrow(front, t, bound);
      if front != [] {
        assert front[|front| - 1].id < log[|log| - 1].id;
      }
    }
  }

  lemma {:induction false} LatestIsLast(log: seq<Event>, t: TaskId, bound: nat)
    requires IdsGrow(log, bound)
    ensures var history := StatusEvents(log, t);
            LatestStatus(log, t) == if history == [] then None else Some(history[|history| - 1])
  {
    if log == [] {
    } else {
      LatestIsLast(log[1..], t, bound);
      StatusEventsCons(log, t);
      StatusIdsGrow(log, t, bound);
      var history, newer := StatusEvents(log, t), StatusEvents(log[1..], t);
      if IsStatusOf(log[0], t) && newer != [] {
        assert history[0] == log[0] && history[|history| - 1] == newer[|newer| - 1];
      }
    }
  }

  lemma {:induction false} WithoutStatuses(log: seq<Event>, t: TaskId, u: TaskId)
    requires u != t
    ensures StatusEvents(Without(log, t), u) == StatusEvents(log, u)
  {
    if log == [] {
    } else {
      WithoutStatuses(log[..|log| - 1], t, u);
    }
  }

  lemma {:induction false} WithoutPruned(log: seq<Event>, t: TaskId, n: nat)
    ensures Without(Pruned(log, n), t) == Pruned(Without(log, t), n)
  {
    if log == [] {
    } else {
      var x, rest := log[0], log[1..];
      assert log == [x] + rest;
      WithoutConcat([x], rest, t);
      WithoutPruned(rest, t, n);
      assert Without([x], t) == if x.task == t then [] else [x];
      WithoutConcat(if Wanted(x, rest, n) then [x] else [], Pruned(rest, n), t);
      if x.task == t {
        assert Without(log, t) == Without(rest, t);
      } else {
        WithoutStatuses(rest, t, x.task);
        assert Without(log, t) == [x] + Without(rest, t);
        assert ([x] + Without(rest, t))[1..] == Without(rest, t);
      }
    }
  }

  lemma {:induction false} WithoutGrows(log: seq<Event>, t: TaskId, bound: nat)
    requires IdsGrow(log, bound)
    ensures IdsGrow(Without(log, t), bound)
    ensures log != [] ==> forall i :: 0 <= i < |Without(log, t)| ==> Without(log, t)[i].id <= log[|log| - 1].id
  {
    if log == [] {
    } else {
      var front, x := log[..|log| - 1], log[|log| - 1];
      WithoutGrows(front, t, bound);
      if front != [] {
        assert front[|front| - 1] == log[|log| - 2];
      }
      GrowsSnoc(Without(front, t), x, bound);
    }
  }

  lemma GrowsSnoc(front: seq<Event>, x: Event, bound: nat)
    requires IdsGrow(front, bound) && x.id < bound
    requires forall i :: 0 <= i < |front| ==> front[i].id < x.id
    ensures IdsGrow(front + [x], bound)
  {
  }
}
