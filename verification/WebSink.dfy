/** The web sink in place: its maps and queues change step by step while clients come and go. */
module WebSinkModel {
  import opened Basics
  import opened LiveView
  import opened LiveTheorems

  /** One state after a list of further steps. */
  function Through(max: nat, st: State, path: seq<Action>): State {
    if path == [] then st else Step(max, Through(max, st, path[..|path| - 1]), path[|path| - 1])
  }

  /** A path that publishes nothing. */
  predicate Quiet(path: seq<Action>) {
    forall i :: 0 <= i < |path| ==> !path[i].Begin?
  }

  lemma ThroughOne(max: nat, st: State, path: seq<Action>, a: Action)
    ensures Through(max, st, path + [a]) == Step(max, Through(max, st, path), a)
  {
    assert (path + [a])[..|path|] == path;
  }

  lemma {:induction false} ThroughConcat(max: nat, st: State, a: seq<Action>, b: seq<Action>)
    ensures Through(max, st, a + b) == Through(max, Through(max, st, a), b)
  {
    if b == [] {
      assert a + b == a;
    } else {
      assert (a + b)[..|a + b| - 1] == a + b[..|b| - 1];
      ThroughConcat(max, st, a, b[..|b| - 1]);
    }
  }

  lemma {:induction false} ThroughKeepsInv(max: nat, st: State, path: seq<Action>)
    requires Inv(max, st)
    ensures Inv(max, Through(max, st, path))
    ensures Quiet(path) ==> Through(max, st, path).latest == st.latest
  {
    if path == [] {
    } else {
      var front := path[..|path| - 1];
      ThroughKeepsInv(max, st, front);
      StepKeepsInv(max, Through(max, st, front), path[|path| - 1]);
      OnlyBeginIndexes(max, Through(max, st, front), path[|path| - 1]);
    }
  }

  lemma {:induction false} RemovedAt(subs: seq<SubId>, i: nat, s: SubId)
    requires i <= |subs| && s !in subs[..i] && (i < |subs| ==> subs[i] == s)
    ensures Removed(subs, s) == if i < |subs| then subs[..i] + subs[i + 1..] else subs
  {
    if i > 0 {
      assert subs[0] in subs[..i];
      assert subs[1..][..i - 1] == subs[1..i];
      RemovedAt(subs[1..], i - 1, s);
    }
  }

  ghost predicate FirstAt(subs: seq<SubId>, s: SubId, i: int) {
    0 <= i < |subs| && subs[i] == s && s !in subs[..i]
  }

  /** `path` leads from one state to another without publishing anything. */
  ghost predicate Trail(max: nat, st: State, path: seq<Action>, st': State) {
    Quiet(path) && Through(max, st, path) == st'
  }

  lemma TrailStep(max: nat, st: State, path: seq<Action>, st': State, a: Action)
    requires Trail(max, st, path, st') && !a.Begin?
    ensures Trail(max, st, path + [a], Step(max, st', a))
  {
    ThroughOne(max, st, path, a);
  }

  lemma TrailJoin(max: nat, st: State, path: seq<Action>, st': State, more: seq<Action>, st'': State)
    requires Trail(max, st, path, st') && Trail(max, st', more, st'')
    ensures Trail(max, st, path + more, st'')
  {
    ThroughConcat(max, st, path, more);
  }

  lemma TrailKeeps(max: nat, st: State, path: seq<Action>, st': State)
    requires Trail(max, st, path, st') && Inv(max, st)
    ensures Inv(max, st') && st'.latest == st.latest
  {
    ThroughKeepsInv(max, st, path);
  }

  /** What a stream still has to replay; None before it has read the index. */
  function ReplayOf(c: Client): Option<seq<Update>> {
    match c
    case Joined => None
    case Streaming(replay, _, _) => Some(replay)
  }

  /**
   * `replays` is the position of each event stream.  The ghost fields are the boards at
   * the far end, and how far the one render in progress has come.
   */
  class WebSink {
    const max: nat
    var latest: Board
    var subs: seq<SubId>
    var queues: map<SubId, seq<Update>>
    var replays: map<SubId, Option<seq<Update>>>
    ghost var clients: map<SubId, Client>
    ghost var emit: Emission

    constructor (max: nat)
      ensures Valid() && View() == Init() && this.max == max
    {
      this.max := max;
      latest, subs, queues, replays := map[], [], map[], map[];
      clients, emit := map[], Idle;
    }

    ghost predicate Valid()
      reads this
    {
      && replays.Keys == clients.Keys
      && forall s :: s in replays ==> replays[s] == ReplayOf(clients[s])
    }

    ghost function View(): State
      reads this
    {
      State(latest, subs, queues, clients, emit)
    }

    // --- the subscribers' side ---

    method Subscribe(s: SubId)
      requires Valid()
      modifies this
      ensures Valid()
      ensures View() == Step(max, old(View()), Join(s))
      ensures s in old(queues) ==> subs == old(subs) && queues == old(queues)
      ensures s !in old(queues) ==> subs == old(subs) + [s] && queues == old(queues)[s := []]
    {
      if s !in queues {
        queues, subs, replays := queues[s := []], subs + [s], replays[s := None];
        clients := clients[s := Joined];
      }
    }

    method Unsubscribe(s: SubId)
      requires Valid()
      modifies this
      ensures Valid()
      ensures View() == Step(max, old(View()), Leave(s))
      ensures queues == old(queues)
      ensures s !in old(subs) ==> subs == old(subs)
      ensures s in old(subs) ==> exists i :: FirstAt(old(subs), s, i) && subs == old(subs)[..i] + old(subs)[i + 1..]
    {
      for i := 0 to |subs|
        invariant Valid() && View() == old(View()) && s !in subs[..i]
      {
        if subs[i] == s {
          RemovedAt(subs, i, s);
          assert FirstAt(subs, s, i);
          subs := subs[..i] + subs[i + 1..];
          return;
        }
      }
      RemovedAt(subs, |subs|, s);
      assert subs[..|subs|] == subs;
    }

    /** `latest`: a copy of the index, for the replay at the head of a stream. */
    method ReplayIndex(s: SubId, order: seq<TaskId>)
      requires Valid()
      modifies this
      ensures Valid()
      ensures View() == Step(max, old(View()), Action.Replay(s, order))
    {
      if s in replays && replays[s].None? && Elements(order) == latest.Keys {
        assert forall t :: t in order ==> t in Elements(order);
        replays := replays[s := Some(Listing(latest, order))];
        clients := clients[s := Streaming(Listing(latest, order), map[], {})];
      }
    }

    /** Send the next update of a stream: its replay first, then its queue. */
    method TakeNext(s: SubId)
      requires Valid()
      modifies this
      ensures Valid()
      ensures View() == Step(max, old(View()), Take(s))
      ensures s in old(queues) && s in old(replays) && old(replays[s]) == Some([]) && old(queues[s]) != [] ==>
        && queues == old(queues[s := queues[s][1..]]) && replays == old(replays)
        && clients[s].board == Deliver(old(clients[s].board), old(queues[s][0]))
    {
      if s !in replays || s !in queues || replays[s].None? {
        return;
      }
      var replay := replays[s].value;
      if replay != [] {
        clients := clients[s := clients[s].(replay := replay[1..], board := Deliver(clients[s].board, replay[0]))];
        replays := replays[s := Some(replay[1..])];
      } else if queues[s] != [] {
        clients := clients[s := clients[s].(board := Deliver(clients[s].board, queues[s][0]))];
        queues := queues[s := queues[s][1..]];
      }
    }

    /** Whatever clients do between two steps of a render. */
    method Meanwhile(acts: seq<Action>) returns (ghost path: seq<Action>)
      requires Valid()
      modifies this
      ensures Valid()
      ensures Trail(max, old(View()), path, View()) && emit == old(emit)
    {
      ghost var before := View();
      path := [];
      for i := 0 to |acts|
        invariant Valid() && Trail(max, before, path, View()) && emit == old(emit)
      {
        if acts[i].Join? || acts[i].Leave? || acts[i].Take? || acts[i].Replay? {
          TrailStep(max, before, path, View(), acts[i]);
          path := path + [acts[i]];
          ByClient(acts[i]);
        }
      }
    }

    method ByClient(a: Action)
      requires Valid()
      requires a.Join? || a.Leave? || a.Take? || a.Replay?
      modifies this
      ensures Valid()
      ensures View() == Step(max, old(View()), a) && emit == old(emit)
    {
      match a
      case Join(s) => Subscribe(s);
      case Leave(s) => Unsubscribe(s);
      case Take(s) => TakeNext(s);
      case Replay(s, order) => ReplayIndex(s, order);
    }

    // --- the render ---

    method UpdateIndex(updates: seq<Update>)
      requires Valid()
      requires emit.Idle?
      modifies this
      ensures Valid()
      ensures View() == Step(max, old(View()), Begin(updates))
    {
      for i := 0 to |updates|
        invariant Valid() && View() == old(View()).(latest := Fold(old(latest), updates[..i]))
      {
        assert updates[..i + 1][..i] == updates[..i];
        var u := updates[i];
        if u.id.None? {
          continue;
        }
        if u.deleted {
          latest := latest - {u.id.value};
        } else {
          latest := latest[u.id.value := u];
        }
      }
      assert updates[..|updates|] == updates;
      clients := map s | s in clients :: Refreshed(clients[s], updates);
      emit := Between(updates);
    }

    /** One event to every subscriber of the moment; clients act between any two queue operations. */
    method Emit(u: Update, acts: nat -> seq<Action>) returns (ghost path: seq<Action>)
      requires Valid()
      requires Inv(max, View()) && emit.Between? && emit.todo != [] && emit.todo[0] == u
      modifies this
      ensures Valid()
      ensures Trail(max, old(View()), path, View())
      ensures emit == Between(old(emit).todo[1..])
    {
      ghost var before := View();
      TrailStep(max, before, [], before, Snap);
      path := [] + [Snap];
      var targets := subs;
      emit := Sending(u, targets, Try, emit.todo[1..]);
      for i := 0 to |targets|
        invariant Valid() && Trail(max, before, path, View())
        invariant emit == Sending(u, targets[i..], Try, before.emit.todo[1..])
      {
        TrailKeeps(max, before, path, View());
        ghost var now := View();
        assert targets[i..][1..] == targets[i + 1..];
        ghost var more := Put(u, targets[i], acts, 3 * i);
        TrailJoin(max, before, path, now, more, View());
        path := path + more;
      }
      TrailStep(max, before, path, View(), Offer);
      path := path + [Offer];
      emit := Between(emit.todo);
    }

    /** put_nowait, and on a full queue get_nowait and a second put_nowait. */
    method Put(u: Update, s: SubId, acts: nat -> seq<Action>, k: nat) returns (ghost path: seq<Action>)
      requires Valid()
      requires Inv(max, View())
      requires emit.Sending? && emit.phase.Try? && emit.current == u && emit.targets != [] && emit.targets[0] == s
      modifies this
      ensures Valid()
      ensures Trail(max, old(View()), path, View())
      ensures emit == old(emit).(targets := old(emit).targets[1..])
    {
      ghost var before := View();
      path := Meanwhile(acts(k));
      TrailKeeps(max, before, path, View());
      TrailStep(max, before, path, View(), Offer);
      path := path + [Offer];
      var done := TryPut(u, s);
      if done {
        return;
      }
      ghost var now := View();
      ghost var more := Meanwhile(acts(k + 1));
      TrailJoin(max, before, path, now, more, View());
      path := path + more;
      TrailStep(max, before, path, View(), Evict);
      path := path + [Evict];
      DropHead(s);
      now := View();
      more := Meanwhile(acts(k + 2));
      TrailJoin(max, before, path, now, more, View());
      path := path + more;
      TrailKeeps(max, before, path, View());
      TrailStep(max, before, path, View(), Again);
      path := path + [Again];
      done := TryPut(u, s);
    }

    /** put_nowait: the first or the second try for one queue. */
    method TryPut(u: Update, s: SubId) returns (done: bool)
      requires Valid()
      requires Inv(max, View()) && emit.Sending? && !emit.phase.Evicting?
      requires emit.current == u && emit.targets != [] && emit.targets[0] == s
      modifies this
      ensures Valid()
      ensures View() == Step(max, old(View()), if old(emit).phase.Try? then Offer else Again)
      ensures done <==> max == 0 || |old(queues[s])| < max
      ensures queues == if done then old(queues[s := queues[s] + [u]]) else old(queues)
      ensures done ==> emit == old(emit).(targets := old(emit).targets[1..], phase := Try)
      ensures !done ==> old(emit).phase.Try? && emit == old(emit).(phase := Evicting)
    {
      done := max == 0 || |queues[s]| < max;
      if done {
        queues := queues[s := queues[s] + [u]];
        emit := emit.(targets := emit.targets[1..], phase := Try);
      } else {
        emit := emit.(phase := Evicting);
      }
    }

    method DropHead(s: SubId)
      requires Valid()
      requires emit.Sending? && emit.phase.Evicting? && emit.targets != [] && emit.targets[0] == s
      modifies this
      ensures Valid()
      ensures View() == Step(max, old(View()), Evict)
      ensures emit == old(emit).(phase := Retry)
      ensures queues ==
        if s in old(queues) && old(queues[s]) != [] then old(queues[s := queues[s][1..]]) else old(queues)
    {
      if s in queues && queues[s] != [] {
        var u, rest := queues[s][0], queues[s][1..];
        queues := queues[s := rest];
        if s in clients {
          clients := clients[s := AfterLoss(clients[s], u, rest + Undelivered(emit, s))];
        }
      }
      emit := emit.(phase := Retry);
    }

    /**
     * One render, whatever clients do in between: the index has taken every update,
     * every listed subscriber is on its way to it, and the steps taken are steps of
     * the board's own machine, with one publication.
     */
    method Render(updates: seq<Update>, acts: nat -> nat -> seq<Action>) returns (ghost path: seq<Action>)
      requires Valid()
      requires Inv(max, View()) && emit.Idle?
      modifies this
      ensures Valid()
      ensures Inv(max, View()) && emit.Idle?
      ensures latest == Fold(old(latest), updates)
      ensures path != [] && path[0] == Begin(updates) && Quiet(path[1..])
      ensures View() == Through(max, old(View()), path)
    {
      ghost var before := View();
      UpdateIndex(updates);
      ghost var indexed := View();
      StepKeepsInv(max, before, Begin(updates));
      path := [];
      for i := 0 to |updates|
        invariant Valid() && Trail(max, indexed, path, View())
        invariant emit == Between(updates[i..])
      {
        TrailKeeps(max, indexed, path, View());
        assert updates[i..][1..] == updates[i + 1..];
        ghost var now := View();
        ghost var more := Emit(updates[i], acts(i));
        TrailJoin(max, indexed, path, now, more, View());
        path := path + more;
      }
      TrailStep(max, indexed, path, View(), Snap);
      path := path + [Snap];
      emit := Idle;
      TrailKeeps(max, indexed, path, View());
      ThroughOne(max, before, [], Begin(updates));
      assert [] + [Begin(updates)] == [Begin(updates)];
      ThroughConcat(max, before, [Begin(updates)], path);
      path := [Begin(updates)] + path;
    }
  }
}
