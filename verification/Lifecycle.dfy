/** The task lifecycle: ten states and the relation every validated write obeys. */
module Lifecycle {

  datatype TaskState =
    | Planned | Queued | Dispatching | Running | Paused
    | Done | Failed | Stuck | Cancelled | Lost
  {
    /** A worker row is active exactly in these states. */
    predicate Live() {
      Running? || Paused? || Stuck?
    }

    predicate Terminal() {
      Done? || Failed? || Cancelled? || Lost?
    }
  }

  /** The edges of the transition table, without the self loops. */
  predicate Allowed(current: TaskState, target: TaskState) {
    match current
    case Planned => target.Queued? || target.Cancelled?
    case Queued => target.Dispatching? || target.Running? || target.Cancelled?
    case Dispatching =>
      target.Running? || target.Queued? || target.Failed? || target.Cancelled? || target.Lost?
    case Running =>
      target.Done? || target.Failed? || target.Stuck? || target.Paused? || target.Cancelled? || target.Lost?
    case Paused => target.Running? || target.Done? || target.Failed? || target.Cancelled? || target.Lost?
    case Stuck => target.Running? || target.Done? || target.Failed? || target.Cancelled? || target.Lost?
    case Lost => target.Queued? || target.Failed? || target.Cancelled?
    case Done => false
    case Failed => false
    case Cancelled => false
  }

  /** What `transition` accepts: staying put, or one table edge. */
  predicate Legal(current: TaskState, target: TaskState) {
    current == target || Allowed(current, target)
  }

  /** A recorded sequence of states in which every change is a table edge. */
  ghost predicate IsPath(history: seq<TaskState>) {
    forall i :: 0 <= i < |history| - 1 ==> Legal(history[i], history[i + 1])
  }

  /**
   * Along any path the three settled outcomes are final: once DONE, FAILED or
   * CANCELLED is reached, every later entry is the same state.
   */
  lemma {:induction false} SettledForever(history: seq<TaskState>, i: nat, j: nat)
    requires IsPath(history)
    requires i <= j < |history|
    requires history[i] in {Done, Failed, Cancelled}
    ensures history[j] == history[i]
  {
    if i < j {
      SettledForever(history, i, j - 1);
      assert Legal(history[j - 1], history[j - 1 + 1]);
    }
  }
}
