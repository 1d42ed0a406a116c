/**
 * The GPU resource adapter: one exclusive lease per UUID, keyed by UUID in memory, and
 * the protocol steps that its answers stand for.
 */
module GpuModel {
  import opened Basics
  import opened Tables
  import opened Lifecycle
  import opened Protocol
  import opened Compensation

  datatype Grant = Granted(lease: Lease) | Unavailable | BadUuid

  /**
   * `wellFormed` is the verdict of the UUID pattern, `lockFree` that of the
   * non-blocking file lock, which is asked only for a UUID not held in this process.
   */
  function GrantFor(held: map<Uuid, WorkerId>, uuid: Option<Uuid>, wellFormed: bool, lockFree: bool): Grant {
    if uuid.None? then Unavailable
    else if !wellFormed then BadUuid
    else if uuid.value in held || !lockFree then Unavailable
    else Granted(GpuLease(uuid.value))
  }

  class GpuResource {
    var held: map<Uuid, WorkerId>

    constructor ()
      ensures held == map[]
    {
      held := map[];
    }

    /** Exactly a granted UUID is recorded, and releasing it restores the table. */
    method Acquire(worker: WorkerId, uuid: Option<Uuid>, wellFormed: bool, lockFree: bool) returns (grant: Grant)
      modifies this
      ensures grant == GrantFor(old(held), uuid, wellFormed, lockFree)
      ensures grant.Granted? <==> uuid.Some? && wellFormed && uuid.value !in old(held) && lockFree
      ensures grant.Granted? ==> grant.lease == GpuLease(uuid.value) && held == old(held)[uuid.value := worker]
      ensures !grant.Granted? ==> held == old(held)
      ensures grant.Granted? ==> ReleaseId(held, Some(grant.lease)) == old(held)
    {
      if uuid.None? {
        return Unavailable;
      }
      if !wellFormed {
        return BadUuid;
      }
      if uuid.value in held || !lockFree {
        return Unavailable;
      }
      held := held[uuid.value := worker];
      return Granted(GpuLease(uuid.value));
    }

    /** Whoever holds the UUID loses it; no other entry changes. */
    method Release(uuid: Uuid)
      modifies this
      ensures uuid !in held && forall u :: u != uuid ==> (u in held <==> u in old(held))
      ensures forall u :: u in held ==> held[u] == old(held)[u]
      ensures held == ReleaseId(old(held), Some(GpuLease(uuid)))
    {
      held := held - {uuid};
    }
  }

  /** The step a claimed attempt takes on an answer: busy goes back to the queue, malformed fails for good. */
  function StepOn(w: WorkerId, grant: Grant): Action {
    match grant
    case Granted(_) => PrepareOk(w)
    case Unavailable => PrepareFails(w, true)
    case BadUuid => PrepareFails(w, false)
  }

  /**
   * Every answer is one enabled step of the protocol with the same effect on the table:
   * the attempt holds the lease exactly if it was granted, and otherwise goes on to be
   * settled.  Conversely the protocol takes a lease only where the adapter can grant it.
   */
  lemma AcquireIsPrepare(c: Config, s: State, w: WorkerId, u: Uuid, wellFormed: bool, lockFree: bool)
    requires w in s.attempts && s.attempts[w].pc.Claimed? && s.attempts[w].need == Some(GpuLease(u))
    ensures var grant := GrantFor(s.held, Some(u), wellFormed, lockFree);
            var s' := Apply(c, s, StepOn(w, grant));
      && w in s'.attempts && s'.db == s.db && s'.attempts[w].task == s.attempts[w].task
      && s'.held == (if grant.Granted? then s.held[u := w] else s.held)
      && s'.attempts[w].pc ==
           match grant { case Granted(lease) => Leased(Some(lease)) case _ => Settling(false, grant.Unavailable?) }
    ensures Apply(c, s, PrepareOk(w)) != s <==> GrantFor(s.held, Some(u), true, true).Granted?
  {
    var grant := GrantFor(s.held, Some(u), wellFormed, lockFree);
    match grant
    case Granted(_) => assert Apply(c, s, StepOn(w, grant)) == DoPrepareOk(s, w);
    case _ => assert Apply(c, s, StepOn(w, grant)) == DoPrepareFails(s, w, grant.Unavailable?);
    assert Apply(c, s, PrepareOk(w)) == DoPrepareOk(s, w);
    if u !in s.held { assert u in DoPrepareOk(s, w).held; }
  }

  /**
   * What becomes of the task: with a malformed UUID its settling write ends it as FAILED,
   * with a UUID in use it puts the task back into the queue.
   */
  lemma RefusalSettles(c: Config, s: State, w: WorkerId, u: Uuid, wellFormed: bool, lockFree: bool, now: int)
    requires w in s.attempts && s.attempts[w].pc.Claimed? && s.attempts[w].need == Some(GpuLease(u))
    requires StateIs(s.db, s.attempts[w].task, Dispatching)
    requires !wellFormed || u in s.held || !lockFree
    ensures var refused := Apply(c, s, StepOn(w, GrantFor(s.held, Some(u), wellFormed, lockFree)));
            var settled := Apply(c, refused, Settle(w, now, true));
      && settled.held == s.held
      && StateIs(settled.db, s.attempts[w].task, if wellFormed then Queued else Failed)
  {
    AcquireIsPrepare(c, s, w, u, wellFormed, lockFree);
    var refused := Apply(c, s, StepOn(w, GrantFor(s.held, Some(u), wellFormed, lockFree)));
    SettlingDecides(c, refused, w, false, wellFormed, now, true);
    assert Apply(c, refused, Settle(w, now, true)).held == refused.held;
  }
}
