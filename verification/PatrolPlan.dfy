/**
 * What the patrol scheduler decides, as functions of the registry, the queue
 * and the GPUs: which tasks are pending, which slot is next, and the whole
 * sequence of placements a run without failures makes.
 */
module PatrolPlan {
  import opened Basics

  /** `gpu` and `slot` are None where the stored value is missing or no number. */
  datatype Record = Record(smoke: bool, gpu: Option<int>, slot: Option<int>)

  type Registry = map<TaskId, Record>

  datatype Placement = Placement(task: TaskId, gpu: int, slot: int) {
    function Entry(): Record {
      Record(false, Some(gpu), Some(slot))
    }
  }

  /** The limits of one patrol; `maxActive <= 0` means no such limit, `maxPerGpu <= 0` means no slot at all. */
  datatype Limits = Limits(maxActive: int, maxPerGpu: int)

  // --- counting ---

  /** `ended` holds the tasks whose status is terminal. */
  function Active(reg: Registry, ended: set<TaskId>): set<TaskId> {
    set t | t in reg && !reg[t].smoke && t !in ended
  }

  function ActiveOn(reg: Registry, ended: set<TaskId>, g: int): set<TaskId> {
    set t | t in Active(reg, ended) && reg[t].gpu == Some(g)
  }

  function Load(reg: Registry, ended: set<TaskId>, g: int): nat {
    |ActiveOn(reg, ended, g)|
  }

  predicate Holds(r: Record, g: int, s: int) {
    r.gpu == Some(g) && r.slot == Some(s)
  }

  ghost predicate Occupied(reg: Registry, ended: set<TaskId>, g: int, s: int) {
    exists t :: t in Active(reg, ended) && Holds(reg[t], g, s)
  }

  /** No slot is given to two active tasks. */
  ghost predicate SlotsDistinct(reg: Registry, ended: set<TaskId>) {
    forall t, u, g, s ::
      t in Active(reg, ended) && u in Active(reg, ended) && Holds(reg[t], g, s) && Holds(reg[u], g, s) ==> t == u
  }

  predicate ActiveFull(reg: Registry, ended: set<TaskId>, lim: Limits) {
    lim.maxActive > 0 && |Active(reg, ended)| >= lim.maxActive
  }

  // --- the queue ---

  /** The known tasks among the first rows. */
  function Listed(rows: seq<Option<TaskId>>): set<TaskId> {
    set r | r in rows && r.Some? :: r.value
  }

  /** First occurrences that are neither registered nor blocked, in queue order. */
  function Pending(rows: seq<Option<TaskId>>, registered: set<TaskId>, blocked: set<TaskId>): (r: seq<TaskId>) {
    if rows == [] then []
    else
      var front, last := rows[..|rows| - 1], rows[|rows| - 1];
      var before := Pending(front, registered, blocked);
      if last.None? || last.value in Listed(front) || last.value in registered || last.value in blocked then before
      else before + [last.value]
  }

  /** A queue row that is turned down: it repeats a task, or something is in the task's way. */
  datatype Refusal =
    | Duplicate(task: TaskId, row: nat)
    | Obstructed(task: TaskId, row: nat, why: Obstacle)

  /** What can stand in the way of a task, in the order in which it is looked for. */
  datatype Obstacle = LegacyWorkspace | Workspace | ProblemMissing

  function Refusals(
      rows: seq<Option<TaskId>>, registered: set<TaskId>, blocked: map<TaskId, Obstacle>): (r: seq<Refusal>) {
    if rows == [] then []
    else
      var front, last := rows[..|rows| - 1], rows[|rows| - 1];
      var before := Refusals(front, registered, blocked);
      if last.None? then before
      else if last.value in Listed(front) then before + [Duplicate(last.value, |front|)]
      else if last.value in registered || last.value !in blocked then before
      else before + [Obstructed(last.value, |front|, blocked[last.value])]
  }

  /** Every row of a known task is pending, refused, or the first row of a registered task, and never two of these. */
  lemma {:induction false} RowsAccounted(
      rows: seq<Option<TaskId>>, registered: set<TaskId>, blocked: map<TaskId, Obstacle>)
    requires None !in rows
    ensures |rows| == |Pending(rows, registered, blocked.Keys)| + |Refusals(rows, registered, blocked)|
        + |Listed(rows) * registered|
  {
    if rows == [] {
    } else {
      var front, last := rows[..|rows| - 1], rows[|rows| - 1];
      assert last in rows;
      RowsAccounted(front, registered, blocked);
      ListedSnoc(rows);
      var before, after := Listed(front) * registered, Listed(rows) * registered;
      if last.value !in Listed(front) && last.value in registered {
        assert after == before + {last.value};
      } else {
        assert after == before;
      }
    }
  }

  /** A refusal names its row's task, and its kind says why it was refused. */
  lemma {:induction false} RefusalsExplained(
      rows: seq<Option<TaskId>>, registered: set<TaskId>, blocked: map<TaskId, Obstacle>, r: Refusal)
    ensures r in Refusals(rows, registered, blocked) <==>
      && r.row < |rows| && rows[r.row] == Some(r.task)
      && (if r.task in Listed(rows[..r.row]) then r.Duplicate?
          else r.Obstructed? && r.task !in registered && r.task in blocked && r.why == blocked[r.task])
  {
    if rows == [] {
    } else {
      var front := rows[..|rows| - 1];
      RefusalsExplained(front, registered, blocked, r);
      if r.row < |front| {
        assert rows[..r.row] == front[..r.row];
      }
    }
  }

  lemma {:induction false} PendingFacts(rows: seq<Option<TaskId>>, registered: set<TaskId>, blocked: set<TaskId>)
    ensures Elements(Pending(rows, registered, blocked)) == Listed(rows) - registered - blocked
    ensures Distinct(Pending(rows, registered, blocked))
  {
    if rows == [] {
    } else {
      var front, last := rows[..|rows| - 1], rows[|rows| - 1];
      PendingFacts(front, registered, blocked);
      ListedSnoc(rows);
      var before, all := Pending(front, registered, blocked), Pending(rows, registered, blocked);
      if last.Some? && all != before {
        assert all == before + [last.value];
        assert all[..|before|] == before;
        ElementsSnoc(all, |before|);
        assert all[..|all|] == all;
        assert last.value !in Elements(before);
      }
    }
  }

  /** Pending tasks are in the order of their first rows. */
  lemma {:induction false} PendingInOrder(
      rows: seq<Option<TaskId>>, registered: set<TaskId>, blocked: set<TaskId>, i: nat, j: nat) returns (row: nat)
    requires i < j < |Pending(rows, registered, blocked)|
    ensures var p := Pending(rows, registered, blocked);
      row < |rows| && rows[row] == Some(p[i]) && p[j] !in Listed(rows[..row + 1])
  {
    var front, last := rows[..|rows| - 1], rows[|rows| - 1];
    var before := Pending(front, registered, blocked);
    if j < |before| {
      row := PendingInOrder(front, registered, blocked, i, j);
      assert rows[..row + 1] == front[..row + 1];
    } else {
      PendingFacts(front, registered, blocked);
      assert before[i] in Elements(before);
      row :| 0 <= row < |front| && front[row] == Some(before[i]);
      assert forall r :: r in rows[..row + 1] ==> r in front;
    }
  }

  lemma ListedSnoc(rows: seq<Option<TaskId>>)
    requires rows != []
    ensures var front, last := rows[..|rows| - 1], rows[|rows| - 1];
            Listed(rows) == Listed(front) + if last.Some? then {last.value} else {}
  {
    var front, last := rows[..|rows| - 1], rows[|rows| - 1];
    assert rows == front + [last];
  }

  /** Pending tasks only disappear as more gets registered or blocked, and keep their order. */
  lemma {:induction false} PendingMonotone(
      rows: seq<Option<TaskId>>, r: set<TaskId>, r': set<TaskId>, b: set<TaskId>, b': set<TaskId>)
    requires r + b <= r' + b'
    ensures |Pending(rows, r', b')| <= |Pending(rows, r, b)|
    ensures forall t :: t in Pending(rows, r', b') ==> t in Pending(rows, r, b)
  {
    if rows == [] {
    } else {
      PendingMonotone(rows[..|rows| - 1], r, r', b, b');
      var last := rows[|rows| - 1];
      assert last.Some? && last.value in r + b ==> last.value in r' + b';
    }
  }

  /** Blocking a registered task changes nothing: registered rows are passed over first. */
  lemma {:induction false} PendingSame(rows: seq<Option<TaskId>>, r: set<TaskId>, b: set<TaskId>, b': set<TaskId>)
    requires r + b == r + b'
    ensures Pending(rows, r, b') == Pending(rows, r, b)
  {
    if rows == [] {
    } else {
      PendingSame(rows[..|rows| - 1], r, b, b');
      var last := rows[|rows| - 1];
      assert last.Some? ==> (last.value in r + b <==> last.value in r + b');
    }
  }

  /** Registering the head of the queue leaves exactly the tail. */
  lemma {:induction false} PendingTail(rows: seq<Option<TaskId>>, r: set<TaskId>, b: set<TaskId>, t: TaskId)
    ensures var p := Pending(rows, r, b); var p' := Pending(rows, r + {t}, b);
            p' == if p != [] && p[0] == t then p[1..] else if t in p then p' else p
  {
    if rows == [] {
    } else {
      var front, last := rows[..|rows| - 1], rows[|rows| - 1];
      PendingTail(front, r, b, t);
      PendingFacts(front, r, b);
      PendingFacts(rows, r, b);
      var p, q := Pending(rows, r, b), Pending(front, r, b);
      assert t in p <==> t in Elements(p);
      assert t in q <==> t in Elements(q);
      if q != [] && q[0] == t {
        assert t in Elements(q) && t in Listed(front);
        if p != q {
          assert p == q + [last.value] && p[1..] == q[1..] + [last.value];
        }
      }
    }
  }

  // --- choosing a slot ---

  /** The least loaded GPU, ties by index, and its lowest free slot. */
  ghost predicate Picked(reg: Registry, ended: set<TaskId>, gpus: seq<int>, max: int, g: int, s: int) {
    && g in gpus && Load(reg, ended, g) < max
    && (forall h :: h in gpus ==> NoHeavier(reg, ended, g, h))
    && 0 <= s < max && !Occupied(reg, ended, g, s)
    && (forall s' :: 0 <= s' < s ==> Occupied(reg, ended, g, s'))
  }

  predicate NoHeavier(reg: Registry, ended: set<TaskId>, g: int, h: int) {
    Load(reg, ended, g) < Load(reg, ended, h) || (Load(reg, ended, g) == Load(reg, ended, h) && g <= h)
  }

  ghost predicate SomePick(reg: Registry, ended: set<TaskId>, gpus: seq<int>, max: int) {
    exists g, s :: Picked(reg, ended, gpus, max, g, s)
  }

  ghost function Pick(reg: Registry, ended: set<TaskId>, gpus: seq<int>, max: int): Option<(int, int)> {
    if SomePick(reg, ended, gpus, max) then
      var g, s :| Picked(reg, ended, gpus, max, g, s);
      Some((g, s))
    else None
  }

  lemma PickIsPicked(reg: Registry, ended: set<TaskId>, gpus: seq<int>, max: int, g: int, s: int)
    requires Picked(reg, ended, gpus, max, g, s)
    ensures Pick(reg, ended, gpus, max) == Some((g, s))
  {
    assert SomePick(reg, ended, gpus, max);
    var p := Pick(reg, ended, gpus, max).value;
    assert Picked(reg, ended, gpus, max, p.0, p.1);
    assert NoHeavier(reg, ended, g, p.0) && NoHeavier(reg, ended, p.0, g);
    assert p.1 < s ==> Occupied(reg, ended, g, p.1);
  }

  /** `n` occupied slots need `n` tasks. */
  lemma {:induction false} OccupiedNeedsTasks(
      reg: Registry, ended: set<TaskId>, g: int, n: nat) returns (holders: set<TaskId>)
    requires forall s :: 0 <= s < n ==> Occupied(reg, ended, g, s)
    ensures |holders| == n && holders <= ActiveOn(reg, ended, g)
    ensures forall t :: t in holders ==> reg[t].slot.Some? && reg[t].slot.value < n
  {
    holders := {};
    if n > 0 {
      var below := OccupiedNeedsTasks(reg, ended, g, n - 1);
      assert Occupied(reg, ended, g, n - 1);
      var t :| t in Active(reg, ended) && Holds(reg[t], g, n - 1);
      holders := below + {t};
    }
  }

  /** Pigeonhole: a GPU below its limit has a free slot within the limit. */
  lemma FreeSlot(reg: Registry, ended: set<TaskId>, g: int, max: nat)
    requires forall s :: 0 <= s < max ==> Occupied(reg, ended, g, s)
    ensures Load(reg, ended, g) >= max
  {
    var holders := OccupiedNeedsTasks(reg, ended, g, max);
    SubsetCard(holders, ActiveOn(reg, ended, g));
  }

  lemma {:induction false} LowestFree(reg: Registry, ended: set<TaskId>, g: int, max: nat, n: nat) returns (s: nat)
    requires n <= max && Load(reg, ended, g) < max
    requires forall s' :: 0 <= s' < n ==> Occupied(reg, ended, g, s')
    ensures s < max && !Occupied(reg, ended, g, s)
    ensures forall s' :: 0 <= s' < s ==> Occupied(reg, ended, g, s')
    decreases max - n
  {
    if n == max {
      FreeSlot(reg, ended, g, max);
    }
    if n < max && Occupied(reg, ended, g, n) {
      s := LowestFree(reg, ended, g, max, n + 1);
    } else {
      s := n;
    }
  }

  lemma {:induction false} Lightest(reg: Registry, ended: set<TaskId>, gpus: seq<int>) returns (g: int)
    requires gpus != []
    ensures g in gpus && forall h :: h in gpus ==> NoHeavier(reg, ended, g, h)
  {
    g := gpus[0];
    if |gpus| > 1 {
      var r := Lightest(reg, ended, gpus[1..]);
      assert r in gpus;
      if !NoHeavier(reg, ended, g, r) {
        g := r;
      }
      forall h | h in gpus ensures NoHeavier(reg, ended, g, h) {
        assert h == gpus[0] || h in gpus[1..];
      }
    }
  }

  /** A slot is found exactly when slots exist at all and some GPU is below its limit. */
  lemma PickExists(reg: Registry, ended: set<TaskId>, gpus: seq<int>, max: int)
    ensures SomePick(reg, ended, gpus, max) <==> max > 0 && exists g :: g in gpus && Load(reg, ended, g) < max
  {
    if max > 0 && exists g :: g in gpus && Load(reg, ended, g) < max {
      var g := Lightest(reg, ended, gpus);
      var h :| h in gpus && Load(reg, ended, h) < max;
      assert NoHeavier(reg, ended, g, h);
      var s := LowestFree(reg, ended, g, max, 0);
      assert Picked(reg, ended, gpus, max, g, s);
    }
  }

  // --- a run without failures ---

  ghost function Plan(
      reg: Registry, ended: set<TaskId>, pending: seq<TaskId>, gpus: seq<int>, lim: Limits, n: nat)
    : (plan: seq<Placement>)
    decreases n
  {
    var pick := Pick(reg, ended, gpus, lim.maxPerGpu);
    if n == 0 || ActiveFull(reg, ended, lim) || pending == [] || pick.None? then []
    else
      var p := Placement(pending[0], pick.value.0, pick.value.1);
      [p] + Plan(reg[p.task := p.Entry()], ended, pending[1..], gpus, lim, n - 1)
  }

  function Apply(reg: Registry, plan: seq<Placement>): Registry
    decreases plan
  {
    if plan == [] then reg else Apply(reg[plan[0].task := plan[0].Entry()], plan[1..])
  }

  function Tasks(plan: seq<Placement>): seq<TaskId> {
    seq(|plan|, i requires 0 <= i < |plan| => plan[i].task)
  }

  function Min(a: nat, b: nat): nat {
    if a < b then a else b
  }

  /** Free room over all GPUs. */
  function Room(reg: Registry, ended: set<TaskId>, gpus: seq<int>, max: int): nat {
    if gpus == [] then 0
    else
      var load := Load(reg, ended, gpus[0]);
      (if load < max then max - load else 0) + Room(reg, ended, gpus[1..], max)
  }

  /** Pending tasks that the total limit still admits. */
  function Admitted(reg: Registry, ended: set<TaskId>, lim: Limits, wanted: nat): nat {
    if lim.maxActive <= 0 then wanted
    else if |Active(reg, ended)| >= lim.maxActive then 0
    else Min(wanted, lim.maxActive - |Active(reg, ended)|)
  }

  ghost predicate Fresh(reg: Registry, ended: set<TaskId>, pending: seq<TaskId>) {
    Distinct(pending) && forall i :: 0 <= i < |pending| ==> pending[i] !in reg && pending[i] !in ended
  }

  /** The least of the four allowances. */
  function Allowance(reg: Registry, ended: set<TaskId>, pending: nat, gpus: seq<int>, lim: Limits, n: nat): nat {
    Min(n, Min(Admitted(reg, ended, lim, pending), Room(reg, ended, gpus, lim.maxPerGpu)))
  }

  /**
   * The closed form: the plan starts exactly the first k pending tasks, in
   * queue order, k being the least of the four allowances.
   */
  lemma {:induction false} PlanClosedForm(
      reg: Registry, ended: set<TaskId>, pending: seq<TaskId>, gpus: seq<int>, lim: Limits, n: nat)
    requires Distinct(gpus) && Fresh(reg, ended, pending)
    ensures Tasks(Plan(reg, ended, pending, gpus, lim, n)) == pending[..Allowance(reg, ended, |pending|, gpus, lim, n)]
    decreases n
  {
    if StepTaken(reg, ended, pending, gpus, lim, n) {
      var p := NextPlacement(reg, ended, pending, gpus, lim, n);
      var reg' := reg[p.task := p.Entry()];
      AllowanceStep(reg, ended, pending, gpus, lim, n);
      FreshTail(reg, ended, pending, p.Entry());
      PlanClosedForm(reg', ended, pending[1..], gpus, lim, n - 1);
      TasksCons(p, Plan(reg', ended, pending[1..], gpus, lim, n - 1));
      var k := Allowance(reg', ended, |pending[1..]|, gpus, lim, n - 1);
      assert pending[..k + 1] == [pending[0]] + pending[1..][..k];
    } else {
      NoAllowance(reg, ended, pending, gpus, lim, n);
    }
  }

  lemma TasksCons(p: Placement, plan: seq<Placement>)
    ensures Tasks([p] + plan) == [p.task] + Tasks(plan)
  {
  }

  ghost predicate StepTaken(
      reg: Registry, ended: set<TaskId>, pending: seq<TaskId>, gpus: seq<int>, lim: Limits, n: nat) {
    n > 0 && !ActiveFull(reg, ended, lim) && pending != [] && Pick(reg, ended, gpus, lim.maxPerGpu).Some?
  }

  ghost function NextPlacement(
      reg: Registry, ended: set<TaskId>, pending: seq<TaskId>, gpus: seq<int>, lim: Limits, n: nat): Placement
    requires StepTaken(reg, ended, pending, gpus, lim, n)
  {
    var pick := Pick(reg, ended, gpus, lim.maxPerGpu).value;
    Placement(pending[0], pick.0, pick.1)
  }

  lemma AllowanceStep(reg: Registry, ended: set<TaskId>, pending: seq<TaskId>, gpus: seq<int>, lim: Limits, n: nat)
    requires Distinct(gpus) && Fresh(reg, ended, pending) && StepTaken(reg, ended, pending, gpus, lim, n)
    ensures var p := NextPlacement(reg, ended, pending, gpus, lim, n);
            Allowance(reg, ended, |pending|, gpus, lim, n)
              == Allowance(reg[p.task := p.Entry()], ended, |pending[1..]|, gpus, lim, n - 1) + 1
  {
    var p := NextPlacement(reg, ended, pending, gpus, lim, n);
    assert Picked(reg, ended, gpus, lim.maxPerGpu, p.gpu, p.slot);
    PlacedCounts(reg, ended, p);
    RoomLeft(reg, ended, gpus, lim.maxPerGpu);
    RoomAfter(reg, reg[p.task := p.Entry()], ended, gpus, lim.maxPerGpu, p.gpu);
  }

  lemma NoAllowance(reg: Registry, ended: set<TaskId>, pending: seq<TaskId>, gpus: seq<int>, lim: Limits, n: nat)
    requires !StepTaken(reg, ended, pending, gpus, lim, n)
    ensures Allowance(reg, ended, |pending|, gpus, lim, n) == 0
  {
    RoomLeft(reg, ended, gpus, lim.maxPerGpu);
    PickExists(reg, ended, gpus, lim.maxPerGpu);
    NoRoomAtAll(reg, ended, gpus, lim.maxPerGpu);
  }

  lemma {:induction false} NoRoomAtAll(reg: Registry, ended: set<TaskId>, gpus: seq<int>, max: int)
    ensures max <= 0 ==> Room(reg, ended, gpus, max) == 0
  {
    if gpus == [] {
    } else {
      NoRoomAtAll(reg, ended, gpus[1..], max);
    }
  }

  /** Whatever bound >= 1 the spread of loads had, it still has after the plan. */
  lemma {:induction false} PlanKeepsBalance(
      reg: Registry, ended: set<TaskId>, pending: seq<TaskId>, gpus: seq<int>, lim: Limits, n: nat, d: nat)
    requires d >= 1 && Fresh(reg, ended, pending)
    requires SpreadWithin(reg, ended, gpus, d)
    ensures SpreadWithin(Apply(reg, Plan(reg, ended, pending, gpus, lim, n)), ended, gpus, d)
    decreases n
  {
    if StepTaken(reg, ended, pending, gpus, lim, n) {
      var p := NextPlacement(reg, ended, pending, gpus, lim, n);
      var reg' := reg[p.task := p.Entry()];
      StepKeepsBalance(reg, ended, gpus, lim.maxPerGpu, p, d);
      FreshTail(reg, ended, pending, p.Entry());
      PlanKeepsBalance(reg', ended, pending[1..], gpus, lim, n - 1, d);
      var rest := Plan(reg', ended, pending[1..], gpus, lim, n - 1);
      assert ([p] + rest)[1..] == rest;
    }
  }

  lemma StepKeepsBalance(reg: Registry, ended: set<TaskId>, gpus: seq<int>, max: int, p: Placement, d: nat)
    requires d >= 1 && SpreadWithin(reg, ended, gpus, d)
    requires Picked(reg, ended, gpus, max, p.gpu, p.slot) && p.task !in reg && p.task !in ended
    ensures SpreadWithin(reg[p.task := p.Entry()], ended, gpus, d)
  {
    var reg' := reg[p.task := p.Entry()];
    PlacedCounts(reg, ended, p);
    forall g, h | g in gpus && h in gpus ensures Load(reg', ended, g) <= Load(reg', ended, h) + d {
      assert NoHeavier(reg, ended, p.gpu, h);
      assert Load(reg, ended, g) <= Load(reg, ended, h) + d;
    }
  }

  ghost predicate SpreadWithin(reg: Registry, ended: set<TaskId>, gpus: seq<int>, d: nat) {
    forall g, h :: g in gpus && h in gpus ==> Load(reg, ended, g) <= Load(reg, ended, h) + d
  }

  lemma FreshTail(reg: Registry, ended: set<TaskId>, pending: seq<TaskId>, entry: Record)
    requires pending != [] && Fresh(reg, ended, pending)
    ensures Fresh(reg[pending[0] := entry], ended, pending[1..])
  {
    var tail := pending[1..];
    forall i | 0 <= i < |tail| ensures tail[i] !in reg[pending[0] := entry] && tail[i] !in ended {
      assert tail[i] == pending[i + 1] && pending[0] != pending[i + 1];
    }
  }

  // --- one more record ---

  predicate Counts(t: TaskId, r: Record, ended: set<TaskId>) {
    !r.smoke && t !in ended
  }

  predicate AddsTo(t: TaskId, r: Record, ended: set<TaskId>, g: int) {
    Counts(t, r, ended) && r.gpu == Some(g)
  }

  lemma AddedActive(reg: Registry, ended: set<TaskId>, t: TaskId, r: Record)
    requires t !in reg
    ensures |Active(reg[t := r], ended)| == |Active(reg, ended)| + if Counts(t, r, ended) then 1 else 0
  {
    var before, after := Active(reg, ended), Active(reg[t := r], ended);
    assert t !in before;
    assert after == before + if Counts(t, r, ended) then {t} else {};
  }

  lemma AddedLoad(reg: Registry, ended: set<TaskId>, t: TaskId, r: Record, g: int)
    requires t !in reg
    ensures Load(reg[t := r], ended, g) == Load(reg, ended, g) + if AddsTo(t, r, ended, g) then 1 else 0
  {
    var before, after := ActiveOn(reg, ended, g), ActiveOn(reg[t := r], ended, g);
    assert t !in before;
    forall u ensures u in after <==> u in before || (u == t && AddsTo(t, r, ended, g)) {
      assert u in Active(reg[t := r], ended) <==> u in Active(reg, ended) || (u == t && Counts(t, r, ended));
    }
    assert after == before + if AddsTo(t, r, ended, g) then {t} else {};
  }

  /** A placement adds one active record, on one GPU. */
  lemma PlacedCounts(reg: Registry, ended: set<TaskId>, p: Placement)
    requires p.task !in reg && p.task !in ended
    ensures var reg' := reg[p.task := p.Entry()];
      && |Active(reg', ended)| == |Active(reg, ended)| + 1
      && (forall g :: Load(reg', ended, g) == Load(reg, ended, g) + if g == p.gpu then 1 else 0)
  {
    AddedActive(reg, ended, p.task, p.Entry());
    forall g ensures Load(reg[p.task := p.Entry()], ended, g) == Load(reg, ended, g) + if g == p.gpu then 1 else 0 {
      AddedLoad(reg, ended, p.task, p.Entry(), g);
    }
  }

  lemma {:induction false} RoomLeft(reg: Registry, ended: set<TaskId>, gpus: seq<int>, max: int)
    ensures Room(reg, ended, gpus, max) > 0 <==> exists g :: g in gpus && Load(reg, ended, g) < max
  {
    if gpus == [] {
    } else {
      RoomLeft(reg, ended, gpus[1..], max);
      assert gpus[0] in gpus;
      assert forall g :: g in gpus <==> g == gpus[0] || g in gpus[1..];
    }
  }

  lemma {:induction false} RoomAfter(
      reg: Registry, reg': Registry, ended: set<TaskId>, gpus: seq<int>, max: int, g: int)
    requires Distinct(gpus) && Load(reg, ended, g) < max
    requires forall h :: Load(reg', ended, h) == Load(reg, ended, h) + if h == g then 1 else 0
    ensures Room(reg', ended, gpus, max) == Room(reg, ended, gpus, max) - if g in gpus then 1 else 0
  {
    if gpus == [] {
    } else {
      RoomAfter(reg, reg', ended, gpus[1..], max, g);
      assert g in gpus <==> g == gpus[0] || g in gpus[1..];
    }
  }
}
