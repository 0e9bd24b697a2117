/**
 * The lazily created shared handle behind getNsdManager and getJmdns: a field
 * that is null until the first request, is then filled with a newly created
 * handle, and is returned unchanged to every later request. Handles are
 * numbered; `next` is the number the next creation hands out, so a number
 * below it has been used before.
 */
module LazyHandle {
  import opened BonjourModel

  datatype Slot = Slot(held: Option<nat>, next: nat)

  /** The outcome of one request: the handle and the new slot, or a creation that threw. */
  datatype Obtained = Obtained(handle: nat, slot: Slot) | CreateFailed

  /** Every held handle was handed out before. */
  predicate Fits(s: Slot)
  {
    s.held.Some? ==> s.held.value < s.next
  }

  /**
   * One request. A held handle is returned and nothing changes (so creation
   * cannot fail then); otherwise a new handle is created, unless the creation
   * throws, in which case the slot stays empty.
   */
  function Obtain(s: Slot, createFails: bool): (r: Obtained)
    ensures s.held.Some? ==> r == Obtained(s.held.value, s)
    ensures s.held.None? ==> (r.CreateFailed? <==> createFails)
    ensures s.held.None? && r.Obtained? ==>
              r.handle == s.next && r.slot == Slot(Some(s.next), s.next + 1)
  {
    match s.held
    case Some(h) => Obtained(h, s)
    case None => if createFails then CreateFailed else Obtained(s.next, Slot(Some(s.next), s.next + 1))
  }

  /** A request that succeeds leaves the handle held; a second request returns it unchanged. */
  lemma ObtainIdempotent(s: Slot, createFails: bool, againFails: bool)
    requires Fits(s)
    requires Obtain(s, createFails).Obtained?
    ensures var r := Obtain(s, createFails);
            Fits(r.slot) && r.slot.held == Some(r.handle) &&
            Obtain(r.slot, againFails) == r
  {
  }
}
