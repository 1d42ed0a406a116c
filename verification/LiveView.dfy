/**
 * The live board of one project: the latest-state index, one bounded queue per
 * subscriber, and the client's copy.  Renders are serialised; a subscriber may
 * join, replay, take or leave between any two steps of a render.
 */
module LiveView {
  import opened Basics

  type SubId = nat

  /** A task view as published; a view without an id reaches queues but no index. */
  datatype Update = Update(id: Option<TaskId>, deleted: bool, body: nat)

  type Board = map<TaskId, Update>

  /**
   * The far end of a stream.  `Joined` has subscribed but not yet read the
   * index; `Streaming` is sending its replay and then its queue.  `stale` records the
   * tasks about which an eviction left the client wrong.
   */
  datatype Client = Joined | Streaming(replay: seq<Update>, board: Board, stale: set<TaskId>)

  datatype Phase = Try | Evicting | Retry

  /** How far the current render has come with its per-task events. */
  datatype Emission =
    | Idle
    | Between(todo: seq<Update>)
    | Sending(current: Update, targets: seq<SubId>, phase: Phase, todo: seq<Update>)

  datatype State = State(
    latest: Board,
    subs: seq<SubId>,
    queues: map<SubId, seq<Update>>,
    clients: map<SubId, Client>,
    emit: Emission)

  datatype Action =
    | Begin(updates: seq<Update>)             // a render updates the index
    | Snap                                    // one event: copy the subscriber list
    | Offer                                   // put_nowait
    | Evict                                   // get_nowait after a full queue
    | Again                                   // put_nowait after the eviction
    | Join(s: SubId)
    | Replay(s: SubId, order: seq<TaskId>)    // read the index, in any order
    | Take(s: SubId)                          // send the next replayed or queued update
    | Leave(s: SubId)

  // --- boards ---

  function Deliver(board: Board, u: Update): Board {
    if u.id.None? then board
    else if u.deleted then board - {u.id.value}
    else board[u.id.value := u]
  }

  function Fold(board: Board, updates: seq<Update>): Board {
    if updates == [] then board else Deliver(Fold(board, updates[..|updates| - 1]), updates[|updates| - 1])
  }

  function At(board: Board, t: TaskId): Option<Update> {
    if t in board then Some(board[t]) else None
  }

  /** What the last update of `t` in a list leaves there; None when the list has none. */
  function LastWrite(q: seq<Update>, t: TaskId): Option<Option<Update>> {
    if q == [] then None
    else
      var u := q[|q| - 1];
      if u.id == Some(t) then Some(Content(u))
      else LastWrite(q[..|q| - 1], t)
  }

  /** The content of `t` once `q` has been delivered. */
  function Finally(board: Board, q: seq<Update>, t: TaskId): Option<Update> {
    match LastWrite(q, t)
    case Some(x) => x
    case None => At(board, t)
  }

  // --- steps ---

  function Full(max: nat, q: seq<Update>): bool {
    max > 0 && |q| >= max
  }

  /** What the current render will still put into the queue of `s`. */
  function Undelivered(emit: Emission, s: SubId): seq<Update> {
    match emit
    case Idle => []
    case Between(todo) => todo
    case Sending(current, targets, _, todo) => (if s in targets then [current] else []) + todo
  }

  function Content(u: Update): Option<Update> {
    if u.deleted then None else Some(u)
  }

  /**
   * The client after its queue lost `u`, with `later` still to come: it is wrong about
   * the task if nothing later speaks of it and what it has already been sent, or is about
   * to replay, says something else.
   */
  function AfterLoss(c: Client, u: Update, later: seq<Update>): Client {
    if c.Streaming? && u.id.Some? && LastWrite(later, u.id.value).None?
      && Finally(c.board, c.replay, u.id.value) != Content(u)
    then c.(stale := c.stale + {u.id.value}) else c
  }

  function Refreshed(c: Client, updates: seq<Update>): Client {
    if c.Joined? then c else c.(stale := set t | t in c.stale && LastWrite(updates, t).None?)
  }

  function Listing(board: Board, order: seq<TaskId>): seq<Update>
    requires forall t :: t in order ==> t in board
  {
    seq(|order|, i requires 0 <= i < |order| => assert order[i] in order; board[order[i]])
  }

  function Step(max: nat, st: State, a: Action): State {
    match a
    case Begin(updates) =>
      if !st.emit.Idle? then st
      else st.(latest := Fold(st.latest, updates), emit := Between(updates),
               clients := map s | s in st.clients :: Refreshed(st.clients[s], updates))
    case Snap =>
      if !st.emit.Between? then st
      else if st.emit.todo == [] then st.(emit := Idle)
      else st.(emit := Sending(st.emit.todo[0], st.subs, Try, st.emit.todo[1..]))
    case Offer =>
      if !(st.emit.Sending? && st.emit.phase.Try?) then st
      else if st.emit.targets == [] then st.(emit := Between(st.emit.todo))
      else
        var s := st.emit.targets[0];
        if s !in st.queues then Advance(st)
        else if Full(max, st.queues[s]) then st.(emit := st.emit.(phase := Evicting))
        else Advance(Enqueue(st, s))
    case Evict =>
      if !(st.emit.Sending? && st.emit.phase.Evicting? && st.emit.targets != []) then st
      else DropOldest(st, st.emit.targets[0])
    case Again =>
      if !(st.emit.Sending? && st.emit.phase.Retry? && st.emit.targets != []) then st
      else
        var s := st.emit.targets[0];
        if s !in st.queues || Full(max, st.queues[s]) then Advance(st) else Advance(Enqueue(st, s))
    case Join(s) =>
      if s in st.queues then st
      else st.(subs := st.subs + [s], queues := st.queues[s := []], clients := st.clients[s := Joined])
    case Replay(s, order) =>
      if !(s in st.clients && st.clients[s].Joined? && Elements(order) == st.latest.Keys) then st
      else
        assert forall t :: t in order ==> t in Elements(order);
        st.(clients := st.clients[s := Streaming(Listing(st.latest, order), map[], {})])
    case Take(s) =>
      if !(s in st.clients && s in st.queues && st.clients[s].Streaming?) then st
      else
        var c := st.clients[s];
        if c.replay != [] then
          st.(clients := st.clients[s := c.(replay := c.replay[1..], board := Deliver(c.board, c.replay[0]))])
        else if st.queues[s] != [] then
          st.(clients := st.clients[s := c.(board := Deliver(c.board, st.queues[s][0]))],
              queues := st.queues[s := st.queues[s][1..]])
        else st
    case Leave(s) =>
      st.(subs := Removed(st.subs, s))
  }

  function Removed(subs: seq<SubId>, s: SubId): seq<SubId> {
    if subs == [] then [] else if subs[0] == s then subs[1..] else [subs[0]] + Removed(subs[1..], s)
  }

  function Advance(st: State): State
    requires st.emit.Sending? && st.emit.targets != []
  {
    st.(emit := st.emit.(targets := st.emit.targets[1..], phase := Try))
  }

  function Enqueue(st: State, s: SubId): State
    requires st.emit.Sending? && s in st.queues
  {
    st.(queues := st.queues[s := st.queues[s] + [st.emit.current]])
  }

  function DropOldest(st: State, s: SubId): State
    requires st.emit.Sending?
  {
    var st' := st.(emit := st.emit.(phase := Retry));
    if s !in st.queues || st.queues[s] == [] then st'
    else
      var rest := st.queues[s][1..];
      var lost := st'.(queues := st.queues[s := rest]);
      if s !in st.clients then lost
      else lost.(clients := st.clients[s := AfterLoss(st.clients[s], st.queues[s][0], rest + Undelivered(st.emit, s))])
  }

  function Init(): State {
    State(map[], [], map[], map[], Idle)
  }

  function Run(max: nat, actions: seq<Action>): State {
    if actions == [] then Init() else Step(max, Run(max, actions[..|actions| - 1]), actions[|actions| - 1])
  }

  // --- the invariant ---

  ghost predicate Indexed(latest: Board) {
    forall t :: t in latest ==> latest[t].id == Some(t) && !latest[t].deleted
  }

  ghost predicate Agrees(latest: Board, c: Client, coming: seq<Update>, t: TaskId) {
    match c
    case Joined => Finally(latest, coming, t) == At(latest, t)
    case Streaming(replay, board, stale) =>
      if t in stale then LastWrite(coming, t).None? && Finally(board, replay + coming, t) != At(latest, t)
      else Finally(board, replay + coming, t) == At(latest, t)
  }

  /**
   * Once all that is on its way to `s` has been delivered, its board is the index on exactly the
   * tasks that are not stale.
   */
  ghost predicate Converging(st: State, s: SubId) {
    && s in st.queues && s in st.clients
    && forall t :: Agrees(st.latest, st.clients[s], st.queues[s] + Undelivered(st.emit, s), t)
  }

  ghost predicate SubsConverge(st: State) {
    forall s :: s in st.subs ==> Converging(st, s)
  }

  /** Queues never exceed their bound, and an eviction has made room for the new update. */
  ghost predicate Bounded(max: nat, st: State) {
    && (forall s :: s in st.queues ==> max > 0 ==> |st.queues[s]| <= max)
    && (st.emit.Sending? && st.emit.phase.Retry? ==>
          st.emit.targets != [] && (st.emit.targets[0] in st.queues ==> !Full(max, st.queues[st.emit.targets[0]])))
    && (st.emit.Sending? && st.emit.phase.Evicting? ==> max > 0)
  }

  /** What is still to be sent carries the index's own values. */
  ghost predicate Current(latest: Board, todo: seq<Update>) {
    forall t :: LastWrite(todo, t).Some? ==> LastWrite(todo, t) == Some(At(latest, t))
  }

  /** Each event goes to distinct known queues, and what is still to be sent carries the index's own values. */
  ghost predicate Addressed(st: State) {
    && Distinct(st.subs)
    && (forall s :: s in st.subs ==> s in st.queues)
    && (st.emit.Sending? ==> Distinct(st.emit.targets) && forall s :: s in st.emit.targets ==> s in st.queues)
    && (st.emit.Sending? ==> Current(st.latest, [st.emit.current] + st.emit.todo))
    && (st.emit.Between? ==> Current(st.latest, st.emit.todo))
  }

  ghost predicate Inv(max: nat, st: State) {
    Indexed(st.latest) && Addressed(st) && Bounded(max, st) && SubsConverge(st)
  }
}
