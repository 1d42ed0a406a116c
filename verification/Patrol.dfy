/**
 * The patrol loop: it keeps a working copy of the registry, starts pending tasks
 * on the least loaded GPUs, and books a failed start as if it were active.
 */
module PatrolModel {
  import opened Basics
  import opened PatrolPlan

  /** How a start ends; a start that fails may have left a workspace, or a registry record, behind. */
  datatype Fate = Success | FailBefore(workspaceMade: bool) | FailAfter

  /** `ended`: tasks whose status turns terminal while the start runs. */
  datatype Outcome = Outcome(fate: Fate, ended: set<TaskId>)

  /** `blocked`: tasks with something in the way, and the first thing found there. */
  datatype World = World(registry: Registry, blocked: map<TaskId, Obstacle>, ended: set<TaskId>) {
    /** A status lives in the task's workspace or in its record. */
    ghost predicate Valid() {
      ended <= registry.Keys + blocked.Keys
    }
  }

  datatype Report =
    | Crashed
    | Report(started: seq<Placement>, wouldStart: seq<Placement>, errors: seq<TaskId>)

  /** What one turn of the patrol loop has to do. */
  datatype Next = UnknownTask | Nothing | Place(placement: Placement)

  // --- what one start does ---

  function InTheWay(w: World, t: TaskId): bool {
    t in w.registry || t in w.blocked.Keys
  }

  function Settled(w: World, ended: set<TaskId>): World {
    w.(ended := w.ended + ended * (w.registry.Keys + w.blocked.Keys))
  }

  function Started(w: World, p: Placement, o: Outcome): World {
    var w' :=
      if InTheWay(w, p.task) then w
      else match o.fate
        case FailBefore(made) => w.(blocked := if made then w.blocked[p.task := Workspace] else w.blocked)
        case _ => w.(registry := w.registry[p.task := p.Entry()], blocked := w.blocked[p.task := Workspace]);
    Settled(w', o.ended)
  }

  /** Every start works and nothing else changes meanwhile. */
  ghost predicate Smooth(outcomes: nat -> Outcome) {
    forall i :: outcomes(i) == Outcome(Success, {})
  }

  // --- what every moment of a patrol keeps ---

  function Max(a: int, b: int): int {
    if a < b then b else a
  }

  ghost predicate Within(w0: World, w: World, lim: Limits) {
    && w.Valid()
    && Covers(w0.registry, w.registry) && w0.ended <= w.ended && w0.blocked.Keys <= w.blocked.Keys
    && (lim.maxActive > 0 ==> |Active(w.registry, w.ended)| <= Max(|Active(w0.registry, w0.ended)|, lim.maxActive))
    && (forall g :: Load(w.registry, w.ended, g) <= Max(Load(w0.registry, w0.ended, g), lim.maxPerGpu))
    && (SlotsDistinct(w0.registry, w0.ended) ==> SlotsDistinct(w.registry, w.ended))
  }

  /** `working` holds every actual record, unchanged. */
  ghost predicate Covers(actual: Registry, working: Registry) {
    forall t :: t in actual ==> t in working && working[t] == actual[t]
  }

  // --- sorting the candidates ---

  function Count(byGpu: map<int, nat>, g: int): nat {
    if g in byGpu then byGpu[g] else 0
  }

  predicate KeyLe(byGpu: map<int, nat>, g: int, h: int) {
    Count(byGpu, g) < Count(byGpu, h) || (Count(byGpu, g) == Count(byGpu, h) && g <= h)
  }

  function InsertGpu(g: int, sorted: seq<int>, byGpu: map<int, nat>): seq<int> {
    if sorted == [] || KeyLe(byGpu, g, sorted[0]) then [g] + sorted
    else [sorted[0]] + InsertGpu(g, sorted[1..], byGpu)
  }

  function ByLoad(gpus: seq<int>, byGpu: map<int, nat>): seq<int> {
    if gpus == [] then [] else InsertGpu(gpus[0], ByLoad(gpus[1..], byGpu), byGpu)
  }

  predicate SortedByLoad(s: seq<int>, byGpu: map<int, nat>) {
    forall i, j :: 0 <= i < j < |s| ==> KeyLe(byGpu, s[i], s[j])
  }

  lemma {:induction false} InsertGpuSorts(g: int, s: seq<int>, byGpu: map<int, nat>)
    requires SortedByLoad(s, byGpu)
    ensures SortedByLoad(InsertGpu(g, s, byGpu), byGpu)
    ensures forall h :: h in InsertGpu(g, s, byGpu) <==> h == g || h in s
  {
    if s != [] && !KeyLe(byGpu, g, s[0]) {
      InsertGpuSorts(g, s[1..], byGpu);
      var r := InsertGpu(g, s[1..], byGpu);
      forall h | h in r ensures KeyLe(byGpu, s[0], h) {
        assert h == g || h in s[1..];
      }
      forall h ensures h in [s[0]] + r <==> h == g || h in s {
        assert h in s <==> h == s[0] || h in s[1..];
      }
    }
  }

  lemma {:induction false} ByLoadSorts(gpus: seq<int>, byGpu: map<int, nat>)
    ensures SortedByLoad(ByLoad(gpus, byGpu), byGpu)
    ensures forall h :: h in ByLoad(gpus, byGpu) <==> h in gpus
  {
    if gpus == [] {
    } else {
      ByLoadSorts(gpus[1..], byGpu);
      InsertGpuSorts(gpus[0], ByLoad(gpus[1..], byGpu), byGpu);
      assert forall h :: h in gpus <==> h == gpus[0] || h in gpus[1..];
    }
  }

  class Control {
    const rows: seq<Option<TaskId>>   // None: the row names a task nobody knows
    const gpus: seq<int>
    var registry: Registry
    var blocked: map<TaskId, Obstacle>
    var ended: set<TaskId>

    constructor (rows: seq<Option<TaskId>>, gpus: seq<int>, w: World)
      ensures this.rows == rows && this.gpus == gpus && View() == w
    {
      this.rows, this.gpus := rows, gpus;
      registry, blocked, ended := w.registry, w.blocked, w.ended;
    }

    function View(): World
      reads this
    {
      World(registry, blocked, ended)
    }

    method ActiveCounts(reg: Registry) returns (total: nat, byGpu: map<int, nat>)
      ensures total == |Active(reg, ended)|
      ensures forall g :: Count(byGpu, g) == Load(reg, ended, g)
    {
      total, byGpu := 0, map[];
      var rest := reg.Keys;
      ghost var done: Registry := map[];
      while rest != {}
        invariant rest <= reg.Keys && done == reg - rest
        invariant total == |Active(done, ended)|
        invariant forall g :: Count(byGpu, g) == Load(done, ended, g)
        decreases |rest|
      {
        var t :| t in rest;
        rest := rest - {t};
        var r := reg[t];
        ghost var before := done;
        done := done[t := r];
        AddedActive(before, ended, t, r);
        forall g
          ensures Load(done, ended, g) == Load(before, ended, g) + if AddsTo(t, r, ended, g) then 1 else 0
        {
          AddedLoad(before, ended, t, r, g);
        }
        if r.smoke || t in ended {
          continue;
        }
        total := total + 1;
        if r.gpu.None? {
          continue;
        }
        byGpu := byGpu[r.gpu.value := Count(byGpu, r.gpu.value) + 1];
      }
      assert reg - {} == reg;
    }

    method OccupiedSlots(reg: Registry) returns (occupied: set<(int, int)>)
      ensures forall g, s :: (g, s) in occupied <==> Occupied(reg, ended, g, s)
    {
      occupied := {};
      var rest := reg.Keys;
      while rest != {}
        invariant rest <= reg.Keys
        invariant forall g, s :: (g, s) in occupied <==>
          exists t :: t in Active(reg, ended) && t !in rest && Holds(reg[t], g, s)
        decreases |rest|
      {
        var t :| t in rest;
        rest := rest - {t};
        var r := reg[t];
        if r.smoke || t in ended || r.gpu.None? || r.slot.None? {
          continue;
        }
        assert t in Active(reg, ended) && Holds(reg[t], r.gpu.value, r.slot.value);
        occupied := occupied + {(r.gpu.value, r.slot.value)};
      }
    }

    method QueueState(reg: Registry) returns (pending: Option<seq<TaskId>>, refused: seq<Refusal>)
      ensures pending.Some? ==> refused == Refusals(rows, reg.Keys, blocked)
      ensures pending == if None in rows then None else Some(Pending(rows, reg.Keys, blocked.Keys))
    {
      var found: seq<TaskId> := [];
      var seen: set<TaskId> := {};
      refused := [];
      for i := 0 to |rows|
        invariant forall j :: 0 <= j < i ==> rows[j].Some?
        invariant seen == Listed(rows[..i])
        invariant found == Pending(rows[..i], reg.Keys, blocked.Keys)
        invariant refused == Refusals(rows[..i], reg.Keys, blocked)
      {
        assert rows[..i + 1][..i] == rows[..i];
        ListedSnoc(rows[..i + 1]);
        if rows[i].None? {
          return None, [];
        }
        var t := rows[i].value;
        if t in seen {
          refused := refused + [Duplicate(t, i)];
          continue;
        }
        seen := seen + {t};
        if t in reg {
          continue;
        }
        if t in blocked {
          refused := refused + [Obstructed(t, i, blocked[t])];
          continue;
        }
        found := found + [t];
      }
      assert rows[..|rows|] == rows;
      return Some(found), refused;
    }

    /** The least loaded GPU's lowest free slot; None exactly when every GPU is full, or slots are off. */
    method ChooseAvailableSlot(reg: Registry, maxPerGpu: int) returns (choice: Option<(int, int)>)
      ensures choice == Pick(reg, ended, gpus, maxPerGpu)
      ensures choice.None? <==> maxPerGpu <= 0 || forall g :: g in gpus ==> Load(reg, ended, g) >= maxPerGpu
      ensures choice.Some? ==> Picked(reg, ended, gpus, maxPerGpu, choice.value.0, choice.value.1)
    {
      PickExists(reg, ended, gpus, maxPerGpu);
      if maxPerGpu <= 0 {
        return None;
      }
      var _, byGpu := ActiveCounts(reg);
      var occupied := OccupiedSlots(reg);
      var candidates := ByLoad(gpus, byGpu);
      ByLoadSorts(gpus, byGpu);
      for i := 0 to |candidates|
        invariant forall j :: 0 <= j < i ==> Load(reg, ended, candidates[j]) >= maxPerGpu
      {
        var index := candidates[i];
        if Count(byGpu, index) >= maxPerGpu {
          continue;
        }
        for slot := 0 to maxPerGpu
          invariant forall s :: 0 <= s < slot ==> Occupied(reg, ended, index, s)
        {
          if (index, slot) !in occupied {
            FirstFits(reg, ended, gpus, byGpu, candidates, maxPerGpu, i);
            PickIsPicked(reg, ended, gpus, maxPerGpu, index, slot);
            return Some((index, slot));
          }
        }
        FreeSlot(reg, ended, index, maxPerGpu);
      }
      return None;
    }

    method StartTask(p: Placement, o: Outcome) returns (ok: bool)
      modifies this
      ensures View() == Started(old(View()), p, o)
      ensures var clear := p.task !in old(registry) && p.task !in old(blocked);
        && (ok <==> clear && o.fate.Success?)
        && registry == (if clear && !o.fate.FailBefore? then old(registry)[p.task := p.Entry()] else old(registry))
        && blocked ==
             (if clear && (o.fate.FailBefore? ==> o.fate.workspaceMade) then old(blocked)[p.task := Workspace]
              else old(blocked))
      ensures forall t :: t in ended <==> t in old(ended) || (t in o.ended && (t in registry || t in blocked))
    {
      ok := false;
      if p.task in blocked || p.task in registry {
      } else if o.fate.FailBefore? {
        if o.fate.workspaceMade {
          blocked := blocked[p.task := Workspace];
        }
      } else {
        blocked := blocked[p.task := Workspace];
        registry := registry[p.task := p.Entry()];
        ok := o.fate.Success?;
      }
      ended := ended + o.ended * (registry.Keys + blocked.Keys);
    }

    /** What the patrol starts next: nothing at a limit, with an empty queue or without a free slot. */
    method NextPlacement(working: Registry, lim: Limits) returns (next: Next)
      ensures next.UnknownTask? ==> None in rows
      ensures next.Nothing? ==> NoneIsNext(rows, gpus, lim, View(), working)
      ensures next.Place? ==> None !in rows && IsNext(rows, gpus, lim, View(), working, next.placement)
    {
      var total, _ := ActiveCounts(working);
      if lim.maxActive > 0 && total >= lim.maxActive {
        return Nothing;
      }
      var queue, _ := QueueState(working);
      if queue.None? {
        return UnknownTask;
      }
      var pending := queue.value;
      if pending == [] {
        return Nothing;
      }
      var choice := ChooseAvailableSlot(working, lim.maxPerGpu);
      if choice.None? {
        return Nothing;
      }
      return Place(Placement(pending[0], choice.value.0, choice.value.1));
    }

    /**
     * One patrol.  `outcomes` says how each start ends, so the claims hold for
     * every pattern of failures; `log` holds every attempt with the world around it.
     */
    method RunPatrol(dryRun: bool, keepGoing: bool, lim: Limits, perTick: int, outcomes: nat -> Outcome)
      returns (report: Report, ghost log: seq<Attempt>)
      requires View().Valid()
      modifies this
      ensures report.Crashed? <==> None in rows
      ensures report.Crashed? || dryRun ==> View() == old(View())
      ensures Within(old(View()), View(), lim)
      ensures report.Report? ==>
        var job := Job(old(View()), rows, gpus, lim, Max(0, perTick), dryRun, keepGoing, Smooth(outcomes));
        Concluded(job, outcomes, View(), report.started, report.wouldStart, report.errors, log)
    {
      ghost var job := Job(View(), rows, gpus, lim, Max(0, perTick), dryRun, keepGoing, Smooth(outcomes));
      ghost var working;
      report, log, working := StartPending(job, dryRun, keepGoing, lim, Max(0, perTick), outcomes);
      MadeWithin(job, outcomes, log);
      if report.Report? {
        Finished(job, outcomes, log, working, report.wouldStart);
        ghost var end := View();
        var final, _ := QueueState(registry);
        assert View() == end;
        if final.None? {
          report := Crashed;
        }
      }
    }

    /** The loop of a patrol. */
    method StartPending(
        ghost job: Job, dryRun: bool, keepGoing: bool, lim: Limits, starts: nat, outcomes: nat -> Outcome)
      returns (report: Report, ghost log: seq<Attempt>, ghost working': Registry)
      requires View().Valid()
      requires job == Job(View(), rows, gpus, lim, starts, dryRun, keepGoing, Smooth(outcomes))
      modifies this
      ensures None in rows || dryRun ==> View() == job.w0
      ensures report.Crashed? ==> None in rows
      ensures Made(job, outcomes, log) && View() == Reached(job.w0, log) && (dryRun ==> log == [])
      ensures report.Report? ==>
        && AsLogged(log, report.started, report.errors)
        && Over(job, log, working', report.wouldStart)
    {
      log := [];
      var working := registry;
      var started, wouldStart, errors := [], [], [];
      while |started| + |wouldStart| < starts
        invariant None in rows || dryRun ==> View() == job.w0
        invariant Made(job, outcomes, log) && MayGoOn(job, log)
        invariant View() == Reached(job.w0, log) && AsLogged(log, started, errors)
        invariant if dryRun then log == [] && OnPlan(job, job.w0, working, wouldStart)
                  else wouldStart == [] && working == Working(job.w0, log)
        decreases starts - |started| - |wouldStart|, |Pending(rows, working.Keys, blocked.Keys)|
      {
        var next := NextPlacement(working, lim);
        if next.UnknownTask? {
          return Crashed, log, working;
        }
        if next.Nothing? {
          break;
        }
        var p := next.placement;
        if dryRun {
          HeadPlaced(job, View(), working, p);
          PlanGoesOn(job, View(), working, wouldStart, p);
          working := working[p.task := p.Entry()];
          wouldStart := wouldStart + [p];
          continue;
        }
        var tried := |started| + |errors|;
        ghost var longer := LoggedOn(job, outcomes, log, tried, p, View(), working);
        var o := outcomes(tried);
        var ok := StartTask(p, o);
        assert View() == Reached(job.w0, longer);
        log := longer;
        if ok {
          started := started + [p];
          working := registry;
        } else {
          errors := errors + [p.task];
          if !keepGoing {
            break;
          }
          working := working[p.task := p.Entry()];
        }
      }
      return Report(started, wouldStart, errors), log, working;
    }
  }

  // --- the attempts of a patrol ---

  /** One start: what it faced, the records counted when it was placed, and what it left. */
  datatype Attempt = Attempt(placement: Placement, outcome: Outcome, before: World, working: Registry, after: World) {
    predicate Ok() {
      outcome.fate.Success?
    }
  }

  /** Attempt `i` failed, and none has succeeded since. */
  ghost predicate FailedLately(log: seq<Attempt>, i: nat) {
    i < |log| && forall j :: i <= j < |log| ==> !log[j].Ok()
  }

  /** What the patrol counts: the registry, and the tasks that failed since the last success as if they ran. */
  ghost predicate Counted(reg: Registry, log: seq<Attempt>, working: Registry) {
    && Covers(reg, working)
    && (forall t :: t in working && t !in reg ==>
          exists i: nat :: FailedLately(log, i) && Books(log[i].placement, working, t))
    && (forall i: nat :: FailedLately(log, i) ==> log[i].placement.task in working)
  }

  ghost predicate Books(p: Placement, working: Registry, t: TaskId) {
    p.task == t && t in working && working[t] == p.Entry()
  }

  /** The next start: the first pending task, on the lowest free slot of the least loaded GPU. */
  ghost predicate IsNext(
      rows: seq<Option<TaskId>>, gpus: seq<int>, lim: Limits, w: World, working: Registry, p: Placement) {
    var pending := Pending(rows, working.Keys, w.blocked.Keys);
    && !ActiveFull(working, w.ended, lim)
    && pending != [] && p.task == pending[0]
    && Picked(working, w.ended, gpus, lim.maxPerGpu, p.gpu, p.slot)
  }

  /** Nothing more can be placed. */
  ghost predicate NoneIsNext(
      rows: seq<Option<TaskId>>, gpus: seq<int>, lim: Limits, w: World, working: Registry) {
    || ActiveFull(working, w.ended, lim)
    || Pending(rows, working.Keys, w.blocked.Keys) == []
    || Pick(working, w.ended, gpus, lim.maxPerGpu).None?
  }

  /** A failure ends a patrol that does not keep going. */
  ghost predicate MayGoOn(job: Job, log: seq<Attempt>) {
    log == [] || job.keepGoing || log[|log| - 1].Ok()
  }

  /** Attempt `a` came next after those of `log`. */
  ghost predicate Follows(job: Job, outcomes: nat -> Outcome, log: seq<Attempt>, a: Attempt) {
    && MayGoOn(job, log) && |Successes(log)| < job.starts
    && a.before == Reached(job.w0, log) && Counted(a.before.registry, log, a.working)
    && IsNext(job.rows, job.gpus, job.lim, a.before, a.working, a.placement)
    && a.outcome == outcomes(|log|) && a.after == Started(a.before, a.placement, a.outcome)
    && Within(job.w0, a.after, job.lim)
  }

  ghost predicate Recorded(job: Job, outcomes: nat -> Outcome, log: seq<Attempt>) {
    forall i :: 0 <= i < |log| ==> Follows(job, outcomes, log[..i], log[i])
  }

  ghost function Reached(w0: World, log: seq<Attempt>): World {
    if log == [] then w0 else log[|log| - 1].after
  }

  ghost function Successes(log: seq<Attempt>): seq<Placement> {
    if log == [] then []
    else
      var last := log[|log| - 1];
      var before := Successes(log[..|log| - 1]);
      if last.Ok() then before + [last.placement] else before
  }

  ghost function Failures(log: seq<Attempt>): seq<TaskId> {
    if log == [] then []
    else
      var last := log[|log| - 1];
      var before := Failures(log[..|log| - 1]);
      if last.Ok() then before else before + [last.placement.task]
  }

  ghost predicate AsLogged(log: seq<Attempt>, started: seq<Placement>, errors: seq<TaskId>) {
    started == Successes(log) && errors == Failures(log) && |started| + |errors| == |log|
  }

  /**
   * Why a live patrol ended: it has started as many tasks as it may, or a failure stopped
   * it, or with the late failures counted there is nothing left that it could place.
   */
  ghost predicate EndedForReason(job: Job, w: World, log: seq<Attempt>) {
    || |Successes(log)| == job.starts
    || !MayGoOn(job, log)
    || exists working :: Counted(w.registry, log, working) && NoneIsNext(job.rows, job.gpus, job.lim, w, working)
  }

  /** What a finished patrol has to show. */
  ghost predicate Concluded(
      job: Job, outcomes: nat -> Outcome, w: World,
      started: seq<Placement>, would: seq<Placement>, errors: seq<TaskId>, log: seq<Attempt>) {
    && Fulfilled(job, w, started, would, errors)
    && Recorded(job, outcomes, log) && w == Reached(job.w0, log) && AsLogged(log, started, errors)
    && (!job.dryRun ==> EndedForReason(job, w, log))
  }

  // --- how the loop makes its log ---

  /** What the loop counts. */
  ghost function Working(w0: World, log: seq<Attempt>): Registry {
    if log == [] then w0.registry
    else
      var last := log[|log| - 1];
      if last.Ok() then last.after.registry
      else Working(w0, log[..|log| - 1])[last.placement.task := last.placement.Entry()]
  }

  ghost predicate Made(job: Job, outcomes: nat -> Outcome, log: seq<Attempt>) {
    log == [] || (Made(job, outcomes, log[..|log| - 1]) && Makes(job, outcomes, log[..|log| - 1], log[|log| - 1]))
  }

  ghost predicate Makes(job: Job, outcomes: nat -> Outcome, log: seq<Attempt>, a: Attempt) {
    && MayGoOn(job, log) && |Successes(log)| < job.starts
    && a.before == Reached(job.w0, log) && a.working == Working(job.w0, log)
    && IsNext(job.rows, job.gpus, job.lim, a.before, a.working, a.placement)
    && a.outcome == outcomes(|log|) && a.after == Started(a.before, a.placement, a.outcome)
  }

  /** One more attempt in the log. */
  lemma LoggedOn(
      job: Job, outcomes: nat -> Outcome, log: seq<Attempt>, tried: nat, p: Placement, w: World, working: Registry)
    returns (longer: seq<Attempt>)
    requires Live(job, outcomes) && Made(job, outcomes, log) && MayGoOn(job, log) && |Successes(log)| < job.starts
    requires w == Reached(job.w0, log) && working == Working(job.w0, log) && tried == |log|
    requires IsNext(job.rows, job.gpus, job.lim, w, working, p)
    ensures Extends(job, outcomes, log, longer, p, outcomes(tried))
  {
    var o := outcomes(tried);
    NextIsClear(job, outcomes, log, p);
    longer := Appended(job, outcomes, log, Attempt(p, o, w, working, Started(w, p, o)));
    if !o.fate.Success? {
      BookedQueue(job, w, working, Started(w, p, o), p);
    }
  }

  lemma Appended(job: Job, outcomes: nat -> Outcome, log: seq<Attempt>, a: Attempt) returns (longer: seq<Attempt>)
    requires Made(job, outcomes, log) && Makes(job, outcomes, log, a)
    ensures Made(job, outcomes, longer) && MayGoOn(job, longer) == (a.Ok() || job.keepGoing)
    ensures Reached(job.w0, longer) == a.after && |longer| == |log| + 1
    ensures Successes(longer) == if a.Ok() then Successes(log) + [a.placement] else Successes(log)
    ensures Failures(longer) == if a.Ok() then Failures(log) else Failures(log) + [a.placement.task]
    ensures Working(job.w0, longer)
      == if a.Ok() then a.after.registry else a.working[a.placement.task := a.placement.Entry()]
  {
    longer := log + [a];
    assert longer[..|log|] == log;
  }

  ghost predicate Extends(
      job: Job, outcomes: nat -> Outcome, log: seq<Attempt>, longer: seq<Attempt>, p: Placement, o: Outcome) {
    var w := Reached(job.w0, log);
    && !InTheWay(w, p.task) && Reached(job.w0, longer) == Started(w, p, o) && |longer| == |log| + 1
    && Made(job, outcomes, longer) && MayGoOn(job, longer) == (o.fate.Success? || job.keepGoing)
    && if o.fate.Success? then Progress(job, log, longer, p) else Setback(job, log, longer, p)
  }

  ghost predicate Progress(job: Job, log: seq<Attempt>, longer: seq<Attempt>, p: Placement) {
    && Successes(longer) == Successes(log) + [p] && Failures(longer) == Failures(log)
    && Working(job.w0, longer) == Reached(job.w0, longer).registry
  }

  ghost predicate Setback(job: Job, log: seq<Attempt>, longer: seq<Attempt>, p: Placement) {
    && Successes(longer) == Successes(log) && Failures(longer) == Failures(log) + [p.task]
    && Working(job.w0, longer) == Working(job.w0, log)[p.task := p.Entry()]
    && |QueueAt(job, Reached(job.w0, longer), Working(job.w0, longer))|
         < |QueueAt(job, Reached(job.w0, log), Working(job.w0, log))|
  }

  function Fails(log: seq<Attempt>): nat {
    if log == [] || log[|log| - 1].Ok() then 0 else Fails(log[..|log| - 1]) + 1
  }

  ghost function MomentOf(job: Job, log: seq<Attempt>): Moment {
    Moment(Reached(job.w0, log), Working(job.w0, log), Successes(log), [], Failures(log), Fails(log))
  }

  ghost predicate Live(job: Job, outcomes: nat -> Outcome) {
    job.w0.Valid() && !job.dryRun && job.smooth == Smooth(outcomes)
  }

  lemma {:induction false} MadeUnderWay(job: Job, outcomes: nat -> Outcome, log: seq<Attempt>)
    requires Live(job, outcomes) && Made(job, outcomes, log) && MayGoOn(job, log)
    ensures UnderWay(job, MomentOf(job, log))
    decreases |log|, 1
  {
    if log == [] {
      UnderWayAtFirst(job);
    } else {
      LastOutcome(job, outcomes, log);
    }
  }

  lemma {:induction false} LastOutcome(job: Job, outcomes: nat -> Outcome, log: seq<Attempt>)
    requires Live(job, outcomes) && Made(job, outcomes, log) && log != []
    ensures Within(job.w0, Reached(job.w0, log), job.lim)
    ensures Covers(Reached(job.w0, log).registry, Working(job.w0, log))
    ensures MayGoOn(job, log) ==> UnderWay(job, MomentOf(job, log))
    ensures !MayGoOn(job, log) ==> Fulfilled(job, Reached(job.w0, log), Successes(log), [], Failures(log))
    decreases |log|, 0
  {
    var front, a := log[..|log| - 1], log[|log| - 1];
    MadeUnderWay(job, outcomes, front);
    MomentAfter(job, log);
    Attempted(job, MomentOf(job, front), a.placement, a.outcome);
  }

  lemma MomentAfter(job: Job, log: seq<Attempt>)
    requires log != []
    ensures var m, a := MomentOf(job, log[..|log| - 1]), log[|log| - 1];
      MomentOf(job, log) == if a.Ok() then Landed(m, a.placement, a.after) else Booked(m, a.placement, a.after)
  {
  }

  lemma FrontAndLast<T>(s: seq<T>)
    requires s != []
    ensures s == s[..|s| - 1] + [s[|s| - 1]]
  {
  }

  lemma MadeWithin(job: Job, outcomes: nat -> Outcome, log: seq<Attempt>)
    requires job.w0.Valid() && job.smooth == Smooth(outcomes) && Made(job, outcomes, log)
    requires job.dryRun ==> log == []
    ensures Within(job.w0, Reached(job.w0, log), job.lim)
  {
    if log == [] {
      UnderWayAtFirst(job);
    } else {
      LastOutcome(job, outcomes, log);
    }
  }

  lemma NextIsClear(job: Job, outcomes: nat -> Outcome, log: seq<Attempt>, p: Placement)
    requires Live(job, outcomes) && Made(job, outcomes, log)
    requires QueueAt(job, Reached(job.w0, log), Working(job.w0, log)) != []
    requires p.task == QueueAt(job, Reached(job.w0, log), Working(job.w0, log))[0]
    ensures !InTheWay(Reached(job.w0, log), p.task)
  {
    HeadPlaced(job, Reached(job.w0, log), Working(job.w0, log), p);
    if log != [] {
      LastOutcome(job, outcomes, log);
    }
  }

  lemma {:induction false} MadeCounted(job: Job, outcomes: nat -> Outcome, log: seq<Attempt>)
    requires Live(job, outcomes) && Made(job, outcomes, log)
    ensures Counted(Reached(job.w0, log).registry, log, Working(job.w0, log))
  {
    if log == [] {
    } else if log[|log| - 1].Ok() {
      ReloadCounts(log);
    } else {
      var front, a := log[..|log| - 1], log[|log| - 1];
      MadeCounted(job, outcomes, front);
      LastMade(job, outcomes, log, a);
      BookedCounts(log, a, Working(job.w0, log));
    }
  }

  lemma LastMade(job: Job, outcomes: nat -> Outcome, log: seq<Attempt>, a: Attempt)
    requires Live(job, outcomes) && Made(job, outcomes, log) && log != [] && a == log[|log| - 1]
    ensures a.before == Reached(job.w0, log[..|log| - 1]) && a.working == Working(job.w0, log[..|log| - 1])
    ensures a.before.registry.Keys <= a.after.registry.Keys
    ensures Covers(a.after.registry, Working(job.w0, log))
  {
    LastOutcome(job, outcomes, log);
  }

  lemma {:induction false} MadeRecorded(job: Job, outcomes: nat -> Outcome, log: seq<Attempt>)
    requires Live(job, outcomes) && Made(job, outcomes, log)
    ensures Recorded(job, outcomes, log)
  {
    if log == [] {
    } else {
      var front, a := log[..|log| - 1], log[|log| - 1];
      LastOutcome(job, outcomes, log);
      MadeCounted(job, outcomes, front);
      MadeRecorded(job, outcomes, front);
      RecordedOn(job, outcomes, front, a);
      FrontAndLast(log);
    }
  }

  lemma RecordedOn(job: Job, outcomes: nat -> Outcome, log: seq<Attempt>, a: Attempt)
    requires Recorded(job, outcomes, log) && Follows(job, outcomes, log, a)
    ensures Recorded(job, outcomes, log + [a])
  {
    var longer := log + [a];
    forall i | 0 <= i < |longer| ensures Follows(job, outcomes, longer[..i], longer[i]) {
      assert longer[..i] == log[..i];
    }
  }

  /** After a success the registry alone counts. */
  lemma ReloadCounts(log: seq<Attempt>)
    requires log != [] && log[|log| - 1].Ok()
    ensures var reg := log[|log| - 1].after.registry; Counted(reg, log, reg)
  {
    forall i: nat ensures !FailedLately(log, i) {
      assert log[|log| - 1].Ok();
    }
  }

  /** A failed attempt is counted from then on. */
  lemma BookedCounts(log: seq<Attempt>, a: Attempt, working: Registry)
    requires log != [] && a == log[|log| - 1] && !a.Ok()
    requires Counted(a.before.registry, log[..|log| - 1], a.working)
    requires a.before.registry.Keys <= a.after.registry.Keys
    requires working == a.working[a.placement.task := a.placement.Entry()] && Covers(a.after.registry, working)
    ensures Counted(a.after.registry, log, working)
  {
    var front, n := log[..|log| - 1], |log| - 1;
    forall t | t in working && t !in a.after.registry
      ensures exists i: nat :: FailedLately(log, i) && Books(log[i].placement, working, t)
    {
      if t == a.placement.task {
        assert FailedLately(log, n) && Books(log[n].placement, working, t);
      } else {
        assert t !in a.before.registry.Keys;
        var i: nat :| FailedLately(front, i) && Books(front[i].placement, a.working, t);
        assert FailedLately(log, i) && Books(log[i].placement, working, t);
      }
    }
    forall i: nat | FailedLately(log, i) ensures log[i].placement.task in working {
      if i < n {
        assert FailedLately(front, i) && front[i] == log[i];
      }
    }
  }

  // --- one patrol as a whole ---

  datatype Job = Job(
    w0: World, rows: seq<Option<TaskId>>, gpus: seq<int>, lim: Limits, starts: nat,
    dryRun: bool, keepGoing: bool, smooth: bool)
  {
    /** Length of the queue before the first start. */
    function Queue(): nat {
      |Pending(rows, w0.registry.Keys, w0.blocked.Keys)|
    }

    ghost function Planned(): seq<Placement> {
      Plan(w0.registry, w0.ended, Pending(rows, w0.registry.Keys, w0.blocked.Keys), gpus, lim, starts)
    }
  }

  /** What a finished patrol has achieved. */
  ghost predicate Fulfilled(
      job: Job, w: World, started: seq<Placement>, wouldStart: seq<Placement>, errors: seq<TaskId>) {
    && Accounted(job.w0, w, started, errors)
    && |started| + |wouldStart| <= job.starts
    && |started| + |errors| <= job.starts * job.Queue()
    && (!job.keepGoing ==> |errors| <= 1)
    && (job.dryRun ==> started == [] && errors == [] && wouldStart == job.Planned())
    && (!job.dryRun ==> wouldStart == [])
    && (!job.dryRun && job.smooth ==>
          && started == job.Planned() && errors == []
          && w.registry == Apply(job.w0.registry, started) && w.ended == job.w0.ended)
  }

  /** Started tasks are new, distinct and registered where the report says; other new records belong to errors. */
  ghost predicate Accounted(w0: World, w: World, started: seq<Placement>, errors: seq<TaskId>) {
    && Distinct(Tasks(started))
    && (forall p :: p in started ==>
          p.task !in w0.registry && p.task in w.registry && w.registry[p.task] == p.Entry())
    && (forall t :: t in w.registry && t !in w0.registry ==> t in Tasks(started) || t in errors)
  }

  /**
   * A patrol without failures, dry or live, places exactly the first k pending
   * tasks in queue order, and leaves the loads as evenly spread as they were.
   */
  lemma QuietPatrol(job: Job, spread: nat)
    requires job.w0.Valid() && Distinct(job.gpus)
    ensures var pending := Pending(job.rows, job.w0.registry.Keys, job.w0.blocked.Keys);
            var k := Allowance(job.w0.registry, job.w0.ended, |pending|, job.gpus, job.lim, job.starts);
            Tasks(job.Planned()) == pending[..k]
    ensures spread >= 1 && SpreadWithin(job.w0.registry, job.w0.ended, job.gpus, spread) ==>
              SpreadWithin(Apply(job.w0.registry, job.Planned()), job.w0.ended, job.gpus, spread)
  {
    var pending := Pending(job.rows, job.w0.registry.Keys, job.w0.blocked.Keys);
    PendingFacts(job.rows, job.w0.registry.Keys, job.w0.blocked.Keys);
    forall i | 0 <= i < |pending| ensures pending[i] !in job.w0.registry && pending[i] !in job.w0.ended {
      assert pending[i] in Elements(pending);
    }
    PlanClosedForm(job.w0.registry, job.w0.ended, pending, job.gpus, job.lim, job.starts);
    if spread >= 1 && SpreadWithin(job.w0.registry, job.w0.ended, job.gpus, spread) {
      PlanKeepsBalance(job.w0.registry, job.w0.ended, pending, job.gpus, job.lim, job.starts, spread);
    }
  }

  /** The variables of the patrol loop; `fails` counts the failures since the registry was last reloaded. */
  datatype Moment = Moment(
      w: World, working: Registry, started: seq<Placement>, would: seq<Placement>, errors: seq<TaskId>,
      fails: nat)

  function QueueAt(job: Job, w: World, working: Registry): seq<TaskId> {
    Pending(job.rows, working.Keys, w.blocked.Keys)
  }

  ghost predicate UnderWay(job: Job, m: Moment) {
    && Course(job, m.w, m.working, m.started, m.errors)
    && (!job.keepGoing ==> m.errors == [])
    && m.would == []
    && Tally(job, |m.started|, |m.would|, |m.errors|, m.fails, |QueueAt(job, m.w, m.working)|)
    && (job.smooth ==> m.errors == [] && Smoothly(job, m.w, m.working, m.started))
  }

  ghost predicate Course(job: Job, w: World, working: Registry, started: seq<Placement>, errors: seq<TaskId>) {
    Within(job.w0, w, job.lim) && Covers(w.registry, working) && Accounted(job.w0, w, started, errors)
  }

  /** What is placed already, continued by the plan from here, is the plan from the beginning. */
  ghost predicate OnPlan(job: Job, w: World, working: Registry, placed: seq<Placement>) {
    && |placed| <= job.starts && w.ended == job.w0.ended
    && job.Planned() == placed +
         Plan(working, w.ended, QueueAt(job, w, working), job.gpus, job.lim, job.starts - |placed|)
  }

  ghost predicate Smoothly(job: Job, w: World, working: Registry, started: seq<Placement>) {
    && working == w.registry == Apply(job.w0.registry, started)
    && OnPlan(job, w, working, started)
  }

  /** Each failure since the last reload took a pending task away. */
  ghost predicate Tally(job: Job, started: nat, would: nat, errors: nat, fails: nat, pending: nat) {
    && started + would <= job.starts
    && fails + pending <= job.Queue()
    && started + errors <= started * job.Queue() + fails
    && (started == job.starts ==> fails == 0)
  }

  /** The loop reaches its body's end with `p` next. */
  ghost predicate NextIs(job: Job, m: Moment, p: Placement) {
    |m.started| + |m.would| < job.starts && IsNext(job.rows, job.gpus, job.lim, m.w, m.working, p)
  }

  lemma UnderWayAtFirst(job: Job)
    requires job.w0.Valid()
    ensures UnderWay(job, Moment(job.w0, job.w0.registry, [], [], [], 0))
    ensures Within(job.w0, job.w0, job.lim)
  {
    assert Within(job.w0, job.w0, job.lim);
    assert OnPlan(job, job.w0, job.w0.registry, []);
  }

  /** Where the loop leaves off. */
  ghost predicate Over(job: Job, log: seq<Attempt>, working: Registry, would: seq<Placement>) {
    && (if job.dryRun then log == [] && OnPlan(job, job.w0, working, would)
        else would == [] && (MayGoOn(job, log) ==> working == Working(job.w0, log)))
    && (MayGoOn(job, log) ==>
          || |Successes(log)| + |would| >= job.starts
          || NoneIsNext(job.rows, job.gpus, job.lim, Reached(job.w0, log), working))
  }

  lemma Finished(
      job: Job, outcomes: nat -> Outcome, log: seq<Attempt>, working: Registry, would: seq<Placement>)
    requires job.w0.Valid() && job.smooth == Smooth(outcomes) && Made(job, outcomes, log)
    requires |Successes(log)| + |Failures(log)| == |log|
    requires Over(job, log, working, would)
    ensures Concluded(job, outcomes, Reached(job.w0, log), Successes(log), would, Failures(log), log)
  {
    if job.dryRun {
      assert would == job.Planned();
    } else {
      MadeRecorded(job, outcomes, log);
      EndExplained(job, outcomes, log, working);
      MadeFulfils(job, outcomes, log, working);
    }
  }

  lemma EndExplained(job: Job, outcomes: nat -> Outcome, log: seq<Attempt>, working: Registry)
    requires Live(job, outcomes) && Made(job, outcomes, log) && Over(job, log, working, [])
    ensures EndedForReason(job, Reached(job.w0, log), log)
  {
    if MayGoOn(job, log) && |Successes(log)| < job.starts {
      MadeCounted(job, outcomes, log);
    } else if MayGoOn(job, log) {
      MadeUnderWay(job, outcomes, log);
    }
  }

  lemma MadeFulfils(job: Job, outcomes: nat -> Outcome, log: seq<Attempt>, working: Registry)
    requires Live(job, outcomes) && Made(job, outcomes, log) && Over(job, log, working, [])
    ensures Fulfilled(job, Reached(job.w0, log), Successes(log), [], Failures(log))
  {
    if MayGoOn(job, log) {
      MadeUnderWay(job, outcomes, log);
      if |Successes(log)| < job.starts {
        TallyEnds(job, |Successes(log)|, |Failures(log)|, Fails(log));
      }
    } else {
      LastOutcome(job, outcomes, log);
    }
  }

  /** The world after an attempt, and the loop's variables with it. */
  lemma Attempted(job: Job, m: Moment, p: Placement, o: Outcome)
    requires UnderWay(job, m) && NextIs(job, m, p) && !job.dryRun
    requires job.smooth ==> o == Outcome(Success, {})
    ensures !InTheWay(m.w, p.task)
    ensures var w' := Started(m.w, p, o);
      && Within(job.w0, w', job.lim)
      && (o.fate.Success? ==> UnderWay(job, Landed(m, p, w')))
      && (!o.fate.Success? ==>
            && Covers(w'.registry, Booked(m, p, w').working)
            && (job.keepGoing ==> UnderWay(job, Booked(m, p, w')))
            && (!job.keepGoing ==> Fulfilled(job, w', m.started, m.would, m.errors + [p.task]))
            && |QueueAt(job, w', Booked(m, p, w').working)| < |QueueAt(job, m.w, m.working)|)
  {
    HeadPlaced(job, m.w, m.working, p);
    AttemptCourse(job, m, p, o);
    var w' := Started(m.w, p, o);
    if o.fate.Success? {
      ReloadedQueue(job, w');
      TallyStarted(job, |m.started|, |m.errors|, m.fails, |QueueAt(job, m.w, m.working)|,
        |QueueAt(job, w', w'.registry)|);
      if job.smooth {
        SmoothStart(job, m.w, m.working, m.started, p, o);
      }
    } else {
      BookedQueue(job, m.w, m.working, w', p);
      TallyEnds(job, |m.started|, |m.errors| + 1, m.fails + 1);
    }
  }

  function Landed(m: Moment, p: Placement, w: World): Moment {
    Moment(w, w.registry, m.started + [p], m.would, m.errors, 0)
  }

  function Booked(m: Moment, p: Placement, w: World): Moment {
    Moment(w, m.working[p.task := p.Entry()], m.started, m.would, m.errors + [p.task], m.fails + 1)
  }

  lemma HeadIsNew(rows: seq<Option<TaskId>>, registered: set<TaskId>, blocked: set<TaskId>)
    requires Pending(rows, registered, blocked) != []
    ensures var t := Pending(rows, registered, blocked)[0]; t !in registered && t !in blocked
  {
    PendingFacts(rows, registered, blocked);
    var t := Pending(rows, registered, blocked)[0];
    assert t in Elements(Pending(rows, registered, blocked));
  }

  lemma HeadPlaced(job: Job, w: World, working: Registry, p: Placement)
    requires QueueAt(job, w, working) != [] && p.task == QueueAt(job, w, working)[0]
    ensures p.task !in working && p.task !in w.blocked.Keys
    ensures QueueAt(job, w, working[p.task := p.Entry()]) == QueueAt(job, w, working)[1..]
  {
    HeadIsNew(job.rows, working.Keys, w.blocked.Keys);
    PendingTail(job.rows, working.Keys, w.blocked.Keys, p.task);
    assert working[p.task := p.Entry()].Keys == working.Keys + {p.task};
  }

  lemma PlanGoesOn(job: Job, w: World, working: Registry, placed: seq<Placement>, p: Placement)
    requires OnPlan(job, w, working, placed) && |placed| < job.starts
    requires !ActiveFull(working, w.ended, job.lim)
    requires QueueAt(job, w, working) != [] && p.task == QueueAt(job, w, working)[0]
    requires Picked(working, w.ended, job.gpus, job.lim.maxPerGpu, p.gpu, p.slot)
    ensures OnPlan(job, w, working[p.task := p.Entry()], placed + [p])
  {
    HeadPlaced(job, w, working, p);
    PickIsPicked(working, w.ended, job.gpus, job.lim.maxPerGpu, p.gpu, p.slot);
    var pending := QueueAt(job, w, working);
    var rest := Plan(working[p.task := p.Entry()], w.ended, pending[1..], job.gpus, job.lim, job.starts - |placed| - 1);
    assert Plan(working, w.ended, pending, job.gpus, job.lim, job.starts - |placed|) == [p] + rest;
    assert placed + ([p] + rest) == (placed + [p]) + rest;
  }

  lemma SmoothStart(job: Job, w: World, working: Registry, started: seq<Placement>, p: Placement, o: Outcome)
    requires Smoothly(job, w, working, started) && |started| < job.starts
    requires !ActiveFull(working, w.ended, job.lim) && o == Outcome(Success, {})
    requires QueueAt(job, w, working) != [] && p.task == QueueAt(job, w, working)[0]
    requires Picked(working, w.ended, job.gpus, job.lim.maxPerGpu, p.gpu, p.slot)
    ensures var w' := Started(w, p, o); Smoothly(job, w', w'.registry, started + [p])
  {
    var w' := Started(w, p, o);
    HeadIsNew(job.rows, working.Keys, w.blocked.Keys);
    assert w' == World(working[p.task := p.Entry()], w.blocked[p.task := Workspace], w.ended);
    PlanGoesOn(job, w, working, started, p);
    ApplySnoc(job.w0.registry, started, p);
    var keys := w'.registry.Keys;
    assert p.task in keys;
    assert keys + w.blocked.Keys == keys + w'.blocked.Keys;
    PendingSame(job.rows, keys, w.blocked.Keys, w'.blocked.Keys);
  }

  lemma AttemptCourse(job: Job, m: Moment, p: Placement, o: Outcome)
    requires Course(job, m.w, m.working, m.started, m.errors) && NextIs(job, m, p)
    ensures var w' := Started(m.w, p, o);
      && Within(job.w0, w', job.lim)
      && (o.fate.Success? ==> Course(job, w', w'.registry, m.started + [p], m.errors))
      && (!o.fate.Success? ==> Course(job, w', Booked(m, p, w').working, m.started, m.errors + [p.task]))
  {
    HeadPlaced(job, m.w, m.working, p);
    StartKeepsWithin(job.w0, m.w, m.working, job.gpus, job.lim, p, o);
    StartAccounted(job.w0, m.w, m.started, m.errors, p, o);
  }

  /** The queue after a reload is never longer than it was at the start. */
  lemma ReloadedQueue(job: Job, w: World)
    requires Covers(job.w0.registry, w.registry) && job.w0.blocked.Keys <= w.blocked.Keys
    ensures |QueueAt(job, w, w.registry)| <= job.Queue()
  {
    forall t | t in job.w0.registry.Keys ensures t in w.registry.Keys {
      assert t in job.w0.registry;
    }
    PendingMonotone(job.rows, job.w0.registry.Keys, w.registry.Keys, job.w0.blocked.Keys, w.blocked.Keys);
  }

  /** Booking a failed start takes its task out of the queue. */
  lemma BookedQueue(job: Job, w: World, working: Registry, w': World, p: Placement)
    requires w.blocked.Keys <= w'.blocked.Keys
    requires QueueAt(job, w, working) != [] && p.task == QueueAt(job, w, working)[0]
    ensures |QueueAt(job, w', working[p.task := p.Entry()])| < |QueueAt(job, w, working)|
  {
    HeadPlaced(job, w, working, p);
    var keys := working[p.task := p.Entry()].Keys;
    PendingMonotone(job.rows, keys, keys, w.blocked.Keys, w'.blocked.Keys);
  }

  lemma TallyStarted(job: Job, started: nat, errors: nat, fails: nat, pending: nat, reloaded: nat)
    requires Tally(job, started, 0, errors, fails, pending)
    requires started < job.starts && pending > 0 && reloaded <= job.Queue()
    ensures Tally(job, started + 1, 0, errors, 0, reloaded)
  {
    assert (started + 1) * job.Queue() == started * job.Queue() + job.Queue();
  }

  lemma TallyEnds(job: Job, started: nat, errors: nat, fails: nat)
    requires started < job.starts && fails <= job.Queue() && started + errors <= started * job.Queue() + fails
    ensures started + errors <= job.starts * job.Queue()
  {
    var q, left := job.Queue(), job.starts - started - 1;
    assert job.starts * q == started * q + q + left * q;
    assert left * q >= 0;
  }

  lemma FewerActive(reg: Registry, ended: set<TaskId>, ended': set<TaskId>)
    requires ended <= ended'
    ensures |Active(reg, ended')| <= |Active(reg, ended)|
    ensures forall g :: Load(reg, ended', g) <= Load(reg, ended, g)
    ensures SlotsDistinct(reg, ended) ==> SlotsDistinct(reg, ended')
  {
    assert Active(reg, ended') <= Active(reg, ended);
    SubsetCard(Active(reg, ended'), Active(reg, ended));
    forall g ensures Load(reg, ended', g) <= Load(reg, ended, g) {
      SubsetCard(ActiveOn(reg, ended', g), ActiveOn(reg, ended, g));
    }
  }

  lemma CoverCounts(reg: Registry, working: Registry, ended: set<TaskId>)
    requires Covers(reg, working)
    ensures |Active(reg, ended)| <= |Active(working, ended)|
    ensures forall g :: Load(reg, ended, g) <= Load(working, ended, g)
    ensures forall g, s :: Occupied(reg, ended, g, s) ==> Occupied(working, ended, g, s)
  {
    assert Active(reg, ended) <= Active(working, ended);
    SubsetCard(Active(reg, ended), Active(working, ended));
    forall g ensures Load(reg, ended, g) <= Load(working, ended, g) {
      SubsetCard(ActiveOn(reg, ended, g), ActiveOn(working, ended, g));
    }
  }

  lemma SettledWithin(w0: World, w: World, lim: Limits, ended: set<TaskId>)
    requires Within(w0, w, lim)
    ensures Within(w0, Settled(w, ended), lim)
  {
    FewerActive(w.registry, w.ended, Settled(w, ended).ended);
  }

  lemma RecordWithin(w0: World, w: World, working: Registry, gpus: seq<int>, lim: Limits, p: Placement)
    requires Within(w0, w, lim) && Covers(w.registry, working) && p.task !in working
    requires !ActiveFull(working, w.ended, lim)
    requires Picked(working, w.ended, gpus, lim.maxPerGpu, p.gpu, p.slot)
    ensures Within(w0, w.(registry := w.registry[p.task := p.Entry()], blocked := w.blocked[p.task := Workspace]), lim)
  {
    var reg, reg' := w.registry, w.registry[p.task := p.Entry()];
    CoverCounts(reg, working, w.ended);
    AddedActive(reg, w.ended, p.task, p.Entry());
    forall g ensures Load(reg', w.ended, g) <= Max(Load(w0.registry, w0.ended, g), lim.maxPerGpu) {
      AddedLoad(reg, w.ended, p.task, p.Entry(), g);
    }
    if SlotsDistinct(reg, w.ended) {
      RecordDistinct(reg, w.ended, p);
    }
  }

  lemma RecordDistinct(reg: Registry, ended: set<TaskId>, p: Placement)
    requires SlotsDistinct(reg, ended) && p.task !in reg && !Occupied(reg, ended, p.gpu, p.slot)
    ensures SlotsDistinct(reg[p.task := p.Entry()], ended)
  {
    var reg' := reg[p.task := p.Entry()];
    forall t, u, g, s |
      && t in Active(reg', ended) && u in Active(reg', ended)
      && Holds(reg'[t], g, s) && Holds(reg'[u], g, s)
      ensures t == u
    {
      assert t != p.task ==> t in Active(reg, ended) && Holds(reg[t], g, s);
      assert u != p.task ==> u in Active(reg, ended) && Holds(reg[u], g, s);
    }
  }

  lemma StartKeepsWithin(w0: World, w: World, working: Registry, gpus: seq<int>, lim: Limits, p: Placement, o: Outcome)
    requires Within(w0, w, lim) && Covers(w.registry, working) && p.task !in working
    requires !ActiveFull(working, w.ended, lim)
    requires Picked(working, w.ended, gpus, lim.maxPerGpu, p.gpu, p.slot)
    ensures Within(w0, Started(w, p, o), lim)
  {
    if InTheWay(w, p.task) {
      SettledWithin(w0, w, lim, o.ended);
    } else if o.fate.FailBefore? {
      var w' := w.(blocked := if o.fate.workspaceMade then w.blocked[p.task := Workspace] else w.blocked);
      SettledWithin(w0, w', lim, o.ended);
    } else {
      var w' := w.(registry := w.registry[p.task := p.Entry()], blocked := w.blocked[p.task := Workspace]);
      RecordWithin(w0, w, working, gpus, lim, p);
      SettledWithin(w0, w', lim, o.ended);
    }
  }

  lemma StartAccounted(w0: World, w: World, started: seq<Placement>, errors: seq<TaskId>, p: Placement, o: Outcome)
    requires Accounted(w0, w, started, errors) && Covers(w0.registry, w.registry) && !InTheWay(w, p.task)
    ensures o.fate.Success? ==> Accounted(w0, Started(w, p, o), started + [p], errors)
    ensures !o.fate.Success? ==> Accounted(w0, Started(w, p, o), started, errors + [p.task])
  {
    var longer := started + [p];
    assert Tasks(longer) == Tasks(started) + [p.task];
    forall i | 0 <= i < |started| ensures Tasks(started)[i] != p.task {
      assert started[i] in started;
    }
  }

  lemma {:induction false} ApplySnoc(reg: Registry, plan: seq<Placement>, p: Placement)
    ensures Apply(reg, plan + [p]) == Apply(reg, plan)[p.task := p.Entry()]
    decreases plan
  {
    if plan == [] {
      assert [] + [p] == [p];
    } else {
      assert (plan + [p])[1..] == plan[1..] + [p];
      ApplySnoc(reg[plan[0].task := plan[0].Entry()], plan[1..], p);
    }
  }

  lemma FirstFits(
      reg: Registry, ended: set<TaskId>, gpus: seq<int>, byGpu: map<int, nat>, candidates: seq<int>, max: int,
      i: nat)
    requires forall g :: Count(byGpu, g) == Load(reg, ended, g)
    requires SortedByLoad(candidates, byGpu) && forall h :: h in candidates <==> h in gpus
    requires i < |candidates| && Load(reg, ended, candidates[i]) < max
    requires forall j :: 0 <= j < i ==> Load(reg, ended, candidates[j]) >= max
    ensures candidates[i] in gpus && forall h :: h in gpus ==> NoHeavier(reg, ended, candidates[i], h)
  {
    forall h | h in gpus ensures NoHeavier(reg, ended, candidates[i], h) {
      var j :| 0 <= j < |candidates| && candidates[j] == h;
      assert i < j ==> KeyLe(byGpu, candidates[i], candidates[j]);
    }
  }
}
