/** What every run of the live board keeps, and what a drained subscriber has. */
module LiveTheorems {
  import opened Basics
  import opened LiveView

  // --- main results ---

  /** The invariant holds in every reachable state. */
  lemma {:induction false} RunKeepsInv(max: nat, actions: seq<Action>)
    ensures Inv(max, Run(max, actions))
  {
    if actions == [] {
    } else {
      var front := actions[..|actions| - 1];
      RunKeepsInv(max, front);
      StepKeepsInv(max, Run(max, front), actions[|actions| - 1]);
    }
  }

  /** All updates that renders have published so far, oldest first. */
  function Published(max: nat, actions: seq<Action>): seq<Update> {
    if actions == [] then []
    else
      var front, a := actions[..|actions| - 1], actions[|actions| - 1];
      Published(max, front) + if a.Begin? && Run(max, front).emit.Idle? then a.updates else []
  }

  /** The index is the replay of everything published. */
  lemma {:induction false} IndexIsReplay(max: nat, actions: seq<Action>)
    ensures Run(max, actions).latest == Fold(map[], Published(max, actions))
  {
    if actions == [] {
    } else {
      var front, a := actions[..|actions| - 1], actions[|actions| - 1];
      IndexIsReplay(max, front);
      if a.Begin? && Run(max, front).emit.Idle? {
        FoldConcat(map[], Published(max, front), a.updates);
      } else {
        assert Published(max, actions) == Published(max, front);
        OnlyBeginIndexes(max, Run(max, front), a);
      }
    }
  }

  ghost predicate Streams(st: State, s: SubId) {
    s in st.subs && s in st.queues && s in st.clients && st.clients[s].Streaming?
  }

  /** Nothing is on its way to `s` any more. */
  ghost predicate Drained(st: State, s: SubId) {
    Streams(st, s) && st.clients[s].replay == [] && st.queues[s] == [] && Undelivered(st.emit, s) == []
  }

  /**
   * A drained subscriber, whenever it joined and whatever was sent to it twice
   * or late, shows the replay of everything published on exactly the tasks that
   * are not stale.
   */
  lemma DrainedShowsIndex(max: nat, actions: seq<Action>, s: SubId)
    requires Drained(Run(max, actions), s)
    ensures var c := Run(max, actions).clients[s]; var truth := Fold(map[], Published(max, actions));
      && (forall t :: t !in c.stale <==> At(c.board, t) == At(truth, t))
      && (c.stale == {} <==> c.board == truth)
  {
    RunKeepsInv(max, actions);
    IndexIsReplay(max, actions);
    var st := Run(max, actions);
    var c := st.clients[s];
    assert Converging(st, s);
    forall t ensures t !in c.stale <==> At(c.board, t) == At(st.latest, t) {
      assert Agrees(st.latest, c, st.queues[s] + Undelivered(st.emit, s), t);
      assert c.replay + (st.queues[s] + Undelivered(st.emit, s)) == [];
    }
    if c.stale == {} {
      BoardsEqual(c.board, st.latest);
    }
  }

  /** Some prefix of the run met a full queue. */
  ghost predicate Overflowed(max: nat, actions: seq<Action>) {
    exists n :: 0 <= n <= |actions| && MeetsFull(Run(max, actions[..n]))
  }

  ghost predicate MeetsFull(st: State) {
    st.emit.Sending? && st.emit.phase.Evicting?
  }

  ghost predicate NoneStale(st: State) {
    forall s :: s in st.clients && st.clients[s].Streaming? ==> st.clients[s].stale == {}
  }

  /** Without overflow no task is ever stale, so every drained board is exactly the replay. */
  lemma {:induction false} NoOverflowNoStale(max: nat, actions: seq<Action>)
    requires !Overflowed(max, actions)
    ensures NoneStale(Run(max, actions))
  {
    if actions == [] {
    } else {
      var front := actions[..|actions| - 1];
      forall n | 0 <= n <= |front| ensures !MeetsFull(Run(max, front[..n])) {
        assert actions[..n] == front[..n];
      }
      NoOverflowNoStale(max, front);
      assert front[..|front|] == front;
      StepKeepsNoneStale(max, Run(max, front), actions[|actions| - 1]);
    }
  }

  lemma StepKeepsNoneStale(max: nat, st: State, a: Action)
    requires NoneStale(st) && !MeetsFull(st)
    ensures NoneStale(Step(max, st, a))
  {
    if a.Begin? && st.emit.Idle? {
      forall s | s in st.clients && st.clients[s].Streaming? ensures Refreshed(st.clients[s], a.updates).stale == {} {
      }
    }
  }

  /** The update that did not fit at first is put after the eviction; it is never dropped. */
  lemma NewestNeverDropped(max: nat, actions: seq<Action>)
    ensures var st := Run(max, actions);
      st.emit.Sending? && st.emit.phase.Retry? ==>
        && st.emit.targets != [] && st.emit.targets[0] in st.queues
        && Step(max, st, Again) == Advance(Enqueue(st, st.emit.targets[0]))
  {
    RunKeepsInv(max, actions);
  }

  /** Send everything there is to send to `s`. */
  function TakeAll(max: nat, st: State, s: SubId, n: nat): State
    decreases n
  {
    if n == 0 then st else TakeAll(max, Step(max, st, Take(s)), s, n - 1)
  }

  /** From any idle state, as many takes as there are waiting updates drain a stream to the index. */
  lemma {:induction false} TakingDrains(max: nat, st: State, s: SubId)
    requires Inv(max, st) && st.emit.Idle? && Streams(st, s)
    ensures var st' := TakeAll(max, st, s, |st.clients[s].replay| + |st.queues[s]|);
      && Drained(st', s) && st'.latest == st.latest
      && (forall t :: t !in st.clients[s].stale <==> At(st'.clients[s].board, t) == At(st.latest, t))
    decreases |st.clients[s].replay| + |st.queues[s]|
  {
    if |st.clients[s].replay| + |st.queues[s]| > 0 {
      StepKeepsInv(max, st, Take(s));
      TakingDrains(max, Step(max, st, Take(s)), s);
    } else {
      var c := st.clients[s];
      assert Converging(st, s);
      forall t ensures t !in c.stale <==> At(c.board, t) == At(st.latest, t) {
        assert Agrees(st.latest, c, st.queues[s] + Undelivered(st.emit, s), t);
        assert c.replay + (st.queues[s] + Undelivered(st.emit, s)) == [];
      }
    }
  }

  /**
   * Whatever the bound of its queue, a burst of one update more leaves a slow subscriber
   * without the first one for good.
   */
  lemma OverflowCanLose(max: nat) returns (actions: seq<Action>)
    requires max >= 1
    ensures var st := Run(max, actions);
      Drained(st, 0) && st.emit.Idle? && 7 in st.latest && 7 !in st.clients[0].board && st.clients[0].stale == {7}
  {
    var a, b := Update(Some(7), false, 1), Update(Some(8), false, 2);
    var none, lost := Streaming([], map[], {}), Streaming([], map[], {7});
    JoinsFirst(max);
    actions := Then(max, [], Init(), Join(0), Lone(map[], Joined));
    actions := Then(max, actions, Lone(map[], Joined), Replay(0, []), Lone(map[], none));
    BurstBegins(max, a, b, none);
    actions := Then(max, actions, Lone(map[], none), Begin(Salvo(a, b, max)),
        Burst(a, b, [], none, Between(Salvo(a, b, max))));
    actions := Fills(max, actions, a, b, none, max);
    SalvoSplit(a, b, max);
    actions := Overflows(max, actions, a, b, none);
    actions := Drains(max, actions, a, b, map[], max);
    assert Copies(b, 0) == [];
  }

  function Copies(b: Update, n: nat): seq<Update> {
    seq(n, _ => b)
  }

  /** One update of one task, then `n` of another. */
  function Salvo(a: Update, b: Update, n: nat): seq<Update> {
    [a] + Copies(b, n)
  }

  lemma SalvoSplit(a: Update, b: Update, max: nat)
    requires max >= 1
    ensures Salvo(a, b, max)[..max] == [a] + Copies(b, max - 1)
    ensures Salvo(a, b, max)[max..] == [b]
    ensures Copies(b, max - 1) + [b] == Copies(b, max)
  {
  }

  ghost function Lone(latest: Board, c: Client): State {
    State(latest, [0], map[0 := []], map[0 := c], Idle)
  }

  /** The board of one subscriber during a render of `a` and copies of `b`. */
  ghost function Burst(a: Update, b: Update, queue: seq<Update>, c: Client, emit: Emission): State {
    State(map[7 := a, 8 := b], [0], map[0 := queue], map[0 := c], emit)
  }

  lemma JoinsFirst(max: nat)
    ensures Step(max, Init(), Join(0)) == Lone(map[], Joined)
    ensures Step(max, Lone(map[], Joined), Replay(0, [])) == Lone(map[], Streaming([], map[], {}))
  {
    assert Listing(map[], []) == [];
  }

  lemma {:induction false} SalvoFolds(a: Update, b: Update, n: nat)
    requires a.id == Some(7) && b.id == Some(8) && !a.deleted && !b.deleted
    ensures Fold(map[], Salvo(a, b, n)) == if n == 0 then map[7 := a] else map[7 := a, 8 := b]
  {
    var all := Salvo(a, b, n);
    if n == 0 {
      assert all == [a] && [a][..0] == [];
      assert Fold(map[], [a]) == Deliver(Fold(map[], []), a);
    } else {
      SalvoFolds(a, b, n - 1);
      assert all[..|all| - 1] == Salvo(a, b, n - 1) && all[|all| - 1] == b;
      assert Fold(map[], all) == Deliver(Fold(map[], Salvo(a, b, n - 1)), b);
    }
  }

  lemma BurstBegins(max: nat, a: Update, b: Update, none: Client)
    requires max >= 1 && a.id == Some(7) && b.id == Some(8) && !a.deleted && !b.deleted
    requires none == Streaming([], map[], {})
    ensures Step(max, Lone(map[], none), Begin(Salvo(a, b, max))) == Burst(a, b, [], none, Between(Salvo(a, b, max)))
  {
    SalvoFolds(a, b, max);
    assert Refreshed(none, Salvo(a, b, max)) == none;
  }

  /** The first `k` updates of the salvo fit. */
  lemma {:induction false} Fills(max: nat, actions: seq<Action>, a: Update, b: Update, c: Client, k: nat)
    returns (more: seq<Action>)
    requires k <= max && Run(max, actions) == Burst(a, b, [], c, Between(Salvo(a, b, max)))
    ensures Run(max, more) == Burst(a, b, Salvo(a, b, max)[..k], c, Between(Salvo(a, b, max)[k..]))
  {
    if k == 0 {
      more := actions;
      assert Salvo(a, b, max)[..0] == [] && Salvo(a, b, max)[0..] == Salvo(a, b, max);
    } else {
      var all := Salvo(a, b, max);
      more := Fills(max, actions, a, b, c, k - 1);
      assert [all[k - 1]] + all[k..] == all[k - 1..];
      assert all[..k - 1] + [all[k - 1]] == all[..k];
      more := Fits(max, more, a, b, c, all[..k - 1], all[k - 1], all[k..]);
    }
  }

  lemma Fits(
      max: nat, actions: seq<Action>, a: Update, b: Update, c: Client, q: seq<Update>, u: Update, todo: seq<Update>)
    returns (more: seq<Action>)
    requires |q| < max && Run(max, actions) == Burst(a, b, q, c, Between([u] + todo))
    ensures Run(max, more) == Burst(a, b, q + [u], c, Between(todo))
  {
    FitSteps(max, a, b, c, q, u, todo);
    more := Then(max, actions, Burst(a, b, q, c, Between([u] + todo)), Snap,
      Burst(a, b, q, c, Sending(u, [0], Try, todo)));
    more := Then(max, more, Burst(a, b, q, c, Sending(u, [0], Try, todo)), Offer,
        Burst(a, b, q + [u], c, Sending(u, [], Try, todo)));
    more := Then(max, more, Burst(a, b, q + [u], c, Sending(u, [], Try, todo)), Offer,
        Burst(a, b, q + [u], c, Between(todo)));
  }

  lemma FitSteps(max: nat, a: Update, b: Update, c: Client, q: seq<Update>, u: Update, todo: seq<Update>)
    requires |q| < max
    ensures Step(max, Burst(a, b, q, c, Between([u] + todo)), Snap) == Burst(a, b, q, c, Sending(u, [0], Try, todo))
    ensures Step(max, Burst(a, b, q, c, Sending(u, [0], Try, todo)), Offer)
        == Burst(a, b, q + [u], c, Sending(u, [], Try, todo))
    ensures Step(max, Burst(a, b, q + [u], c, Sending(u, [], Try, todo)), Offer)
        == Burst(a, b, q + [u], c, Between(todo))
  {
    assert ([u] + todo)[1..] == todo;
    assert [0][1..] == [];
  }

  /** The last update does not fit: the first one is evicted for it. */
  lemma Overflows(max: nat, actions: seq<Action>, a: Update, b: Update, none: Client) returns (more: seq<Action>)
    requires max >= 1 && a.id == Some(7) && !a.deleted && b.id == Some(8) && none == Streaming([], map[], {})
    requires Run(max, actions) == Burst(a, b, [a] + Copies(b, max - 1), none, Between([b]))
    ensures Run(max, more) == Burst(a, b, Copies(b, max), Streaming([], map[], {7}), Idle)
  {
    var full, rest, lost := [a] + Copies(b, max - 1), Copies(b, max - 1), Streaming([], map[], {7});
    EvictSteps(max, a, b, none);
    more := Then(max, actions, Burst(a, b, full, none, Between([b])), Snap,
        Burst(a, b, full, none, Sending(b, [0], Try, [])));
    more := Then(max, more, Burst(a, b, full, none, Sending(b, [0], Try, [])), Offer,
        Burst(a, b, full, none, Sending(b, [0], Evicting, [])));
    more := Then(max, more, Burst(a, b, full, none, Sending(b, [0], Evicting, [])), Evict,
        Burst(a, b, rest, lost, Sending(b, [0], Retry, [])));
    AgainSteps(max, a, b, lost);
    more := Then(max, more, Burst(a, b, rest, lost, Sending(b, [0], Retry, [])), Again,
        Burst(a, b, Copies(b, max), lost, Sending(b, [], Try, [])));
    more := Then(max, more, Burst(a, b, Copies(b, max), lost, Sending(b, [], Try, [])), Offer,
        Burst(a, b, Copies(b, max), lost, Between([])));
    more := Then(max, more, Burst(a, b, Copies(b, max), lost, Between([])), Snap,
        Burst(a, b, Copies(b, max), lost, Idle));
  }

  lemma EvictSteps(max: nat, a: Update, b: Update, none: Client)
    requires max >= 1 && a.id == Some(7) && !a.deleted && b.id == Some(8) && none == Streaming([], map[], {})
    ensures var full := [a] + Copies(b, max - 1);
      && Step(max, Burst(a, b, full, none, Between([b])), Snap) == Burst(a, b, full, none, Sending(b, [0], Try, []))
      && Step(max, Burst(a, b, full, none, Sending(b, [0], Try, [])), Offer)
           == Burst(a, b, full, none, Sending(b, [0], Evicting, []))
      && Step(max, Burst(a, b, full, none, Sending(b, [0], Evicting, [])), Evict)
           == Burst(a, b, Copies(b, max - 1), Streaming([], map[], {7}), Sending(b, [0], Retry, []))
  {
    var full, rest := [a] + Copies(b, max - 1), Copies(b, max - 1);
    assert [b][1..] == [] && full[1..] == rest;
    assert rest + ([b] + []) == Copies(b, max);
    CopiesSilent(b, max);
    assert Finally(map[], [], 7) == None != Content(a);
    assert AfterLoss(none, a, Copies(b, max)) == Streaming([], map[], {7});
  }

  lemma {:induction false} CopiesSilent(b: Update, n: nat)
    requires b.id == Some(8)
    ensures LastWrite(Copies(b, n), 7) == None
  {
    if n == 0 {
    } else {
      assert Copies(b, n)[..n - 1] == Copies(b, n - 1);
      CopiesSilent(b, n - 1);
    }
  }

  lemma AgainSteps(max: nat, a: Update, b: Update, c: Client)
    requires max >= 1
    ensures Step(max, Burst(a, b, Copies(b, max - 1), c, Sending(b, [0], Retry, [])), Again)
        == Burst(a, b, Copies(b, max), c, Sending(b, [], Try, []))
  {
    assert Copies(b, max - 1) + [b] == Copies(b, max);
    assert [0][1..] == [];
  }

  lemma TakesCopy(max: nat, a: Update, b: Update, board: Board, n: nat)
    requires n >= 1 && b.id == Some(8) && !b.deleted
    ensures Step(max, Draining(a, b, board, n), Take(0)) == Draining(a, b, board[8 := b], n - 1)
  {
    assert Copies(b, n)[0] == b && Copies(b, n)[1..] == Copies(b, n - 1);
  }

  ghost function Draining(a: Update, b: Update, board: Board, n: nat): State {
    Burst(a, b, Copies(b, n), Streaming([], board, {7}), Idle)
  }

  lemma {:induction false} Drains(max: nat, actions: seq<Action>, a: Update, b: Update, board: Board, n: nat)
    returns (more: seq<Action>)
    requires b.id == Some(8) && !b.deleted && Run(max, actions) == Draining(a, b, board, n)
    ensures Run(max, more) == Draining(a, b, if n == 0 then board else board[8 := b], 0)
    decreases n
  {
    if n == 0 {
      more := actions;
    } else {
      TakesCopy(max, a, b, board, n);
      more := Then(max, actions, Draining(a, b, board, n), Take(0), Draining(a, b, board[8 := b], n - 1));
      assert board[8 := b][8 := b] == board[8 := b];
      more := Drains(max, more, a, b, board[8 := b], n - 1);
    }
  }

  lemma Then(max: nat, actions: seq<Action>, st: State, a: Action, st': State) returns (actions': seq<Action>)
    requires Run(max, actions) == st && Step(max, st, a) == st'
    ensures Run(max, actions') == st'
  {
    actions' := actions + [a];
    assert actions'[..|actions|] == actions;
  }

  // --- boards and lists of updates ---

  lemma BoardsEqual(a: Board, b: Board)
    requires forall t :: At(a, t) == At(b, t)
    ensures a == b
  {
    forall t ensures t in a <==> t in b {
      assert At(a, t) == At(b, t);
    }
    forall t | t in a ensures a[t] == b[t] {
      assert At(a, t) == At(b, t);
    }
  }

  lemma {:induction false} FoldConcat(board: Board, a: seq<Update>, b: seq<Update>)
    ensures Fold(board, a + b) == Fold(Fold(board, a), b)
  {
    if b == [] {
      assert a + b == a;
    } else {
      assert (a + b)[..|a + b| - 1] == a + b[..|b| - 1];
      FoldConcat(board, a, b[..|b| - 1]);
    }
  }

  lemma {:induction false} LastWriteConcat(a: seq<Update>, b: seq<Update>, t: TaskId)
    ensures LastWrite(a + b, t) == if LastWrite(b, t).Some? then LastWrite(b, t) else LastWrite(a, t)
  {
    if b == [] {
      assert a + b == a;
    } else {
      assert (a + b)[..|a + b| - 1] == a + b[..|b| - 1];
      LastWriteConcat(a, b[..|b| - 1], t);
    }
  }

  lemma {:induction false} FoldIsLastWrite(board: Board, q: seq<Update>, t: TaskId)
    ensures At(Fold(board, q), t) == Finally(board, q, t)
  {
    if q == [] {
    } else {
      FoldIsLastWrite(board, q[..|q| - 1], t);
    }
  }

  lemma {:induction false} FoldIndexed(board: Board, q: seq<Update>)
    requires Indexed(board)
    ensures Indexed(Fold(board, q))
  {
    if q == [] {
    } else {
      FoldIndexed(board, q[..|q| - 1]);
    }
  }

  /** Delivering the first of the coming updates changes nothing in the end. */
  lemma DeliverFirst(board: Board, u: Update, q: seq<Update>, t: TaskId)
    ensures Finally(board, [u] + q, t) == Finally(Deliver(board, u), q, t)
  {
    LastWriteConcat([u], q, t);
    assert [u][..0] == [];
    assert LastWrite([u], t) == if u.id == Some(t) then Some(Content(u)) else None;
  }

  lemma {:induction false} ListingWrites(board: Board, order: seq<TaskId>, t: TaskId)
    requires Indexed(board) && forall u :: u in order ==> u in board
    ensures LastWrite(Listing(board, order), t) == if t in order then Some(Some(board[t])) else None
  {
    if order == [] {
    } else {
      var front, u := order[..|order| - 1], order[|order| - 1];
      assert order == front + [u];
      ListingWrites(board, front, t);
      assert u in order;
      assert Listing(board, order)[..|order| - 1] == Listing(board, front);
    }
  }

  lemma OnlyBeginIndexes(max: nat, st: State, a: Action)
    ensures !(a.Begin? && st.emit.Idle?) ==> Step(max, st, a).latest == st.latest
  {
  }

  // --- the invariant, step by step ---

  lemma StepKeepsInv(max: nat, st: State, a: Action)
    requires Inv(max, st)
    ensures Inv(max, Step(max, st, a))
  {
    if a.Begin? && st.emit.Idle? {
      FoldIndexed(st.latest, a.updates);
    } else {
      OnlyBeginIndexes(max, st, a);
    }
    StepKeepsAddressed(max, st, a);
    StepKeepsBounded(max, st, a);
    StepKeepsConverging(max, st, a);
  }

  lemma {:induction false} RemovedKeeps(subs: seq<SubId>, s: SubId)
    requires Distinct(subs)
    ensures Distinct(Removed(subs, s))
    ensures forall x :: x in Removed(subs, s) <==> x in subs && x != s
  {
    if subs == [] {
    } else {
      forall x ensures x in subs <==> x == subs[0] || x in subs[1..] {
      }
      if subs[0] != s {
        RemovedKeeps(subs[1..], s);
        var rest := Removed(subs[1..], s);
        forall i, j | 0 <= i < j < |rest| + 1 ensures ([subs[0]] + rest)[i] != ([subs[0]] + rest)[j] {
          assert rest[j - 1] in subs[1..];
        }
      }
    }
  }

  lemma CurrentTail(latest: Board, u: Update, todo: seq<Update>)
    requires Current(latest, [u] + todo)
    ensures Current(latest, todo)
  {
    forall t | LastWrite(todo, t).Some? ensures LastWrite(todo, t) == Some(At(latest, t)) {
      LastWriteConcat([u], todo, t);
    }
  }

  lemma CurrentFold(latest: Board, updates: seq<Update>)
    ensures Current(Fold(latest, updates), updates)
  {
    forall t | LastWrite(updates, t).Some? ensures LastWrite(updates, t) == Some(At(Fold(latest, updates), t)) {
      FoldIsLastWrite(latest, updates, t);
    }
  }

  lemma StepKeepsAddressed(max: nat, st: State, a: Action)
    requires Addressed(st)
    ensures Addressed(Step(max, st, a))
  {
    match a
    case Begin(updates) =>
      if st.emit.Idle? {
        CurrentFold(st.latest, updates);
      }
    case Snap =>
      if st.emit.Between? && st.emit.todo != [] {
        assert [st.emit.todo[0]] + st.emit.todo[1..] == st.emit.todo;
      }
    case Offer => SendKeepsAddressed(max, st, a);
    case Evict => SendKeepsAddressed(max, st, a);
    case Again => SendKeepsAddressed(max, st, a);
    case Leave(s) => RemovedKeeps(st.subs, s);
    case _ =>
  }

  lemma SendKeepsAddressed(max: nat, st: State, a: Action)
    requires Addressed(st) && (a.Offer? || a.Evict? || a.Again?)
    ensures Addressed(Step(max, st, a))
  {
    if st.emit.Sending? {
      CurrentTail(st.latest, st.emit.current, st.emit.todo);
    }
  }

  lemma StepKeepsBounded(max: nat, st: State, a: Action)
    requires Bounded(max, st) && Addressed(st)
    ensures Bounded(max, Step(max, st, a))
  {
  }

  lemma StepKeepsConverging(max: nat, st: State, a: Action)
    requires Inv(max, st)
    ensures SubsConverge(Step(max, st, a))
  {
    var st' := Step(max, st, a);
    RemovedSubs(st, a);
    forall s | s in st'.subs ensures Converging(st', s) {
      if a.Join? && s !in st.subs {
        JoinConverges(max, st, s);
      } else {
        assert Converging(st, s);
        match a
        case Begin(updates) => BeginConverges(max, st, updates, s);
        case Replay(x, order) => ReplayConverges(max, st, x, order, s);
        case Take(x) => TakeConverges(max, st, x, s);
        case Evict => EvictConverges(max, st, s);
        case Snap => SameComing(st, st', s);
        case Offer => SendConverges(max, st, a, s);
        case Again => SendConverges(max, st, a, s);
        case Join(x) => SameComing(st, st', s);
        case Leave(x) => SameComing(st, st', s);
      }
    }
  }

  lemma RemovedSubs(st: State, a: Action)
    requires Addressed(st)
    ensures a.Leave? ==> forall s :: s in Removed(st.subs, a.s) ==> s in st.subs
  {
    if a.Leave? {
      RemovedKeeps(st.subs, a.s);
    }
  }

  function Coming(st: State, s: SubId): seq<Update>
    requires s in st.queues
  {
    st.queues[s] + Undelivered(st.emit, s)
  }

  /** A step that leaves the index, the client and what comes to it alone. */
  lemma SameComing(st: State, st': State, s: SubId)
    requires Converging(st, s)
    requires s in st'.queues && s in st'.clients && st'.clients[s] == st.clients[s] && st'.latest == st.latest
    requires Coming(st', s) == Coming(st, s)
    ensures Converging(st', s)
  {
    forall t ensures Agrees(st'.latest, st'.clients[s], Coming(st', s), t) {
      assert Agrees(st.latest, st.clients[s], Coming(st, s), t);
    }
  }

  lemma SendConverges(max: nat, st: State, a: Action, s: SubId)
    requires Addressed(st) && Bounded(max, st) && Converging(st, s) && (a.Offer? || a.Again?)
    ensures Converging(Step(max, st, a), s)
  {
    var st' := Step(max, st, a);
    if st' != st && st.emit.targets != [] && st.emit.targets[0] == s && st'.queues != st.queues {
      assert s !in st.emit.targets[1..];
      assert st.queues[s] + ([st.emit.current] + st.emit.todo) == (st.queues[s] + [st.emit.current]) + st.emit.todo;
      assert Coming(st', s) == Coming(st, s);
    } else if st' != st && st.emit.targets != [] && st'.queues != st.queues {
      assert s in st.emit.targets <==> s in st.emit.targets[1..];
      assert Coming(st', s) == Coming(st, s);
    }
    SameComing(st, st', s);
  }

  lemma JoinConverges(max: nat, st: State, s: SubId)
    requires Addressed(st) && s !in st.queues
    ensures Converging(Step(max, st, Join(s)), s)
  {
    var st' := Step(max, st, Join(s));
    var coming := Undelivered(st.emit, s);
    if st.emit.Sending? {
      assert s !in st.emit.targets;
      assert coming == st.emit.todo;
      CurrentTail(st.latest, st.emit.current, st.emit.todo);
    }
    assert [] + coming == coming;
    assert Current(st.latest, coming);
    forall t ensures Agrees(st.latest, Joined, coming, t) {
    }
  }

  lemma BeginConverges(max: nat, st: State, updates: seq<Update>, s: SubId)
    requires Converging(st, s)
    ensures Converging(Step(max, st, Begin(updates)), s)
  {
    var st' := Step(max, st, Begin(updates));
    if st.emit.Idle? {
      var queue := st.queues[s];
      assert Coming(st, s) == queue;
      forall t ensures Agrees(st'.latest, st'.clients[s], queue + updates, t) {
        assert Agrees(st.latest, st.clients[s], Coming(st, s), t);
        FoldIsLastWrite(st.latest, updates, t);
        LastWriteConcat(queue, updates, t);
        if st.clients[s].Streaming? {
          var replay := st.clients[s].replay;
          assert replay + (queue + updates) == (replay + queue) + updates;
          LastWriteConcat(replay + queue, updates, t);
        }
      }
    }
  }

  lemma ReplayConverges(max: nat, st: State, x: SubId, order: seq<TaskId>, s: SubId)
    requires Indexed(st.latest) && Converging(st, s)
    ensures Converging(Step(max, st, Replay(x, order)), s)
  {
    var st' := Step(max, st, Replay(x, order));
    if s == x && st'.clients[s] != st.clients[s] {
      var coming := Coming(st, s);
      forall t | t in order ensures t in st.latest {
        assert t in Elements(order);
      }
      var replay := Listing(st.latest, order);
      forall t ensures Agrees(st'.latest, Streaming(replay, map[], {}), coming, t) {
        assert Agrees(st.latest, Joined, coming, t);
        ListingWrites(st.latest, order, t);
        LastWriteConcat(replay, coming, t);
        assert t in order <==> t in Elements(order);
      }
    } else {
      SameComing(st, st', s);
    }
  }

  lemma TakeConverges(max: nat, st: State, x: SubId, s: SubId)
    requires Converging(st, s)
    ensures Converging(Step(max, st, Take(x)), s)
  {
    var st' := Step(max, st, Take(x));
    if s == x && st' != st {
      var c, coming, coming' := st.clients[s], Coming(st, s), Coming(st', s);
      if c.replay == [] {
        assert coming == [coming[0]] + coming';
      }
      forall t ensures Agrees(st'.latest, st'.clients[s], coming', t) {
        assert Agrees(st.latest, c, coming, t);
        if c.replay != [] {
          ReplayTaken(st.latest, c, coming, t);
        } else {
          QueueTaken(st.latest, c, coming[0], coming', t);
        }
      }
    } else {
      SameComing(st, st', s);
    }
  }

  lemma ReplayTaken(latest: Board, c: Client, coming: seq<Update>, t: TaskId)
    requires c.Streaming? && c.replay != [] && Agrees(latest, c, coming, t)
    ensures Agrees(latest, c.(replay := c.replay[1..], board := Deliver(c.board, c.replay[0])), coming, t)
  {
    assert c.replay + coming == [c.replay[0]] + (c.replay[1..] + coming);
    DeliverFirst(c.board, c.replay[0], c.replay[1..] + coming, t);
  }

  lemma QueueTaken(latest: Board, c: Client, u: Update, coming: seq<Update>, t: TaskId)
    requires c.Streaming? && c.replay == [] && Agrees(latest, c, [u] + coming, t)
    ensures Agrees(latest, c.(board := Deliver(c.board, u)), coming, t)
  {
    assert [] + ([u] + coming) == [u] + coming && [] + coming == coming;
    DeliverFirst(c.board, u, coming, t);
    LastWriteConcat([u], coming, t);
  }

  lemma EvictConverges(max: nat, st: State, s: SubId)
    requires Converging(st, s)
    ensures Converging(Step(max, st, Evict), s)
  {
    var st' := Step(max, st, Evict);
    if st' != st && s == st.emit.targets[0] && st.queues[s] != [] {
      var u, rest, coming' := st.queues[s][0], st.queues[s][1..], Coming(st', s);
      assert coming' == rest + Undelivered(st.emit, s);
      assert Coming(st, s) == [u] + coming';
      forall t ensures Agrees(st'.latest, st'.clients[s], coming', t) {
        assert Agrees(st.latest, st.clients[s], Coming(st, s), t);
        LossAgrees(st.latest, st.clients[s], u, coming', t);
      }
    } else {
      SameComing(st, st', s);
    }
  }

  lemma LossAgrees(latest: Board, c: Client, u: Update, coming: seq<Update>, t: TaskId)
    requires Agrees(latest, c, [u] + coming, t)
    ensures Agrees(latest, AfterLoss(c, u, coming), coming, t)
  {
    LastWriteConcat([u], coming, t);
    assert [u][..0] == [];
    if c.Streaming? {
      LastWriteConcat(c.replay, [u] + coming, t);
      LastWriteConcat(c.replay, coming, t);
    }
  }
}
