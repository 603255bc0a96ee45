/**
 What each call on the trigger store does to its rows, and what each turn of an engine does with the slots it
 claims: which slots are taken, which runs are created, and when the next one is due.
 */
module TriggerOutcomes {
  import opened Wrappers
  import T = Triggers
  import S = SchedulerEngine

  /** The row may be claimed: it is enabled, its slot has come, and no lease on it still runs. */
  predicate Claimable(row: T.Row, now: int) {
    && row.enabled && row.trigger.nextFireAt <= now
    && (row.lease == None || row.lease.value.expiresAt <= now)
  }

  predicate Owns(s: T.Store, id: T.Id, owner: T.OwnerName) {
    id in s.rows && s.rows[id].lease.Some? && s.rows[id].lease.value.owner == owner
  }

  /** A claim takes exactly the rows that may be claimed, for the time of the lease, and notes their slots. */
  lemma ClaimTakesExactly(s: T.Store, now: int, owner: T.OwnerName, leaseMs: int)
    ensures
      var n := T.Next(s, T.Claim(now, owner, leaseMs));
      && n.rows.Keys == s.rows.Keys && n.completed == s.completed
      && (forall id | id in s.rows ::
            n.rows[id] == if Claimable(s.rows[id], now) then s.rows[id].(lease := Some(T.Lease(owner, now + leaseMs)))
                          else s.rows[id])
      && forall f :: f in n.claims <==>
           f in s.claims || (f.id in s.rows && Claimable(s.rows[f.id], now)
                             && f == T.Firing(f.id, s.rows[f.id].trigger.nextFireAt, owner))
  {}

  /** A completion counts exactly for the owner of the lease; it notes the slot, and gives the lease back. */
  lemma CompletionCountsIff(s: T.Store, id: T.Id, owner: T.OwnerName, firedAt: int, hash: nat)
    requires T.Inv(s)
    ensures
      var n := T.Next(s, T.Complete(id, owner, firedAt, hash));
      if Owns(s, id, owner) then
        && n.completed == s.completed + [T.Firing(id, s.rows[id].trigger.nextFireAt, owner)] && n.claims == s.claims
        && n.rows.Keys == s.rows.Keys && (forall other | other in s.rows && other != id :: n.rows[other] == s.rows[other])
        && n.rows[id].lease == None && n.rows[id].enabled == !s.rows[id].trigger.oneShot
        && n.rows[id].trigger == s.rows[id].trigger.(nextFireAt := n.rows[id].trigger.nextFireAt)
        && n.rows[id].trigger.nextFireAt ==
             if s.rows[id].trigger.oneShot then T.NEVER else T.NextOccurrence(s.rows[id].trigger, firedAt, hash)
      else n == s
  {}

  /** A failure counts exactly for the owner of the lease; it puts the slot off, and gives the lease back. */
  lemma FailureCountsIff(s: T.Store, id: T.Id, owner: T.OwnerName, retryAt: int)
    ensures
      var n := T.Next(s, T.Fail(id, owner, retryAt));
      if Owns(s, id, owner) then
        && n.completed == s.completed && n.claims == s.claims
        && n.rows.Keys == s.rows.Keys && (forall other | other in s.rows && other != id :: n.rows[other] == s.rows[other])
        && n.rows[id].trigger == s.rows[id].trigger.(nextFireAt := retryAt)
        && n.rows[id].lease == None && n.rows[id].enabled == s.rows[id].enabled
      else n == s
  {}

  /** A trigger that is put takes effect at once and is enabled; a claim under way keeps its lease. */
  lemma PutTakesEffect(s: T.Store, id: T.Id, t: T.Trigger)
    ensures
      var n := T.Next(s, T.Put(id, t));
      && n.completed == s.completed && n.claims == s.claims
      && (forall other | other in s.rows && other != id :: other in n.rows && n.rows[other] == s.rows[other])
      && if T.IsValid(t) then
           && id in n.rows && n.rows[id].trigger == t && n.rows[id].enabled
           && n.rows[id].lease == if id in s.rows then s.rows[id].lease else None
         else n == s
  {}

  // ---- the engine

  lemma ClaimableIffDue(row: T.Row, now: int)
    ensures T.IsDue(row, now) <==> Claimable(row, now)
  {}

  /** A tick claims exactly the slots that may be claimed now, for half a minute, and has a run created for each. */
  lemma TickClaimsExactly(w: S.World, owner: T.OwnerName, f: S.Flight)
    ensures
      var n := S.Next(w, S.Tick(owner));
      && n.clock == w.clock && n.created == w.created && n.fired == w.fired
      && (f in n.flights <==>
            || f in w.flights
            || (f.id in w.store.rows && Claimable(w.store.rows[f.id], w.clock)
                && f == S.Flight(f.id, w.store.rows[f.id].trigger.nextFireAt, owner, w.clock)))
      && (f.id in w.store.rows && Claimable(w.store.rows[f.id], w.clock) ==>
            f.id in n.store.rows && n.store.rows[f.id] == w.store.rows[f.id].(lease := Some(T.Lease(owner, w.clock + 30_000))))
  {
    var taken := set id | id in S.Due(w) :: S.Claim(w, id, owner);
    if f.id in w.store.rows {
      ClaimableIffDue(w.store.rows[f.id], w.clock);
      if f.id in S.Due(w) { assert S.Claim(w, f.id, owner) in taken; }
    }
    assert S.Next(w, S.Tick(owner)).flights == w.flights + taken;
  }

  /**
   What was claimed comes to its end once. A run that could not be created, or whose completion throws, is tried
   again half a minute after the claim, if the store still takes the owner's word; a completed one counts as
   fired exactly if the store does.
   */
  lemma FlightEndsAs(w: S.World, f: S.Flight, ending: S.Ending)
    requires f in w.flights
    ensures
      var n := S.Next(w, S.Finish(f, ending));
      var counts := Owns(w.store, f.id, f.owner);
      && n.flights == w.flights - {f} && n.clock == w.clock
      && n.created == (if ending.NotCreated? then w.created else w.created + [S.Creation(f, Some(w.clock))])
      && n.fired == (if ending.Completed? && counts then w.fired + [T.Firing(f.id, f.slot, f.owner)] else w.fired)
      && n.store == (if ending.Completed? then T.Next(w.store, T.Complete(f.id, f.owner, f.at, ending.hash))
                     else T.Next(w.store, T.Fail(f.id, f.owner, f.at + 30_000)))
  {}

  /** An engine that is lost leaves the store alone; the run it had created stays. */
  lemma LostFlightLeaves(w: S.World, f: S.Flight, created: bool)
    ensures
      var n := S.Next(w, S.Lose(f, created));
      && n.store == w.store && n.clock == w.clock && n.fired == w.fired && n.flights == w.flights - {f}
      && n.created == if f in w.flights && created then w.created + [S.Creation(f, None)] else w.created
  {}

  /** A trigger that is there is not replaced; a new one is put as it is. */
  lemma EnsuresOnce(w: S.World, id: T.Id, t: T.Trigger)
    ensures
      var n := S.Next(w, S.Ensure(id, t));
      && n.flights == w.flights && n.created == w.created && n.fired == w.fired && n.clock == w.clock
      && n.store == if id in w.store.rows then w.store else T.Next(w.store, T.Put(id, t))
  {}

  /** The way of a slot: claimed when it is due, its run created and completed in time, it has fired. */
  lemma DueSlotFires(w: S.World, id: T.Id, owner: T.OwnerName, ms: nat, hash: nat)
    requires id in w.store.rows && Claimable(w.store.rows[id], w.clock)
    ensures
      var slot := w.store.rows[id].trigger.nextFireAt;
      var f := S.Flight(id, slot, owner, w.clock);
      var n := S.Next(S.Next(S.Next(w, S.Tick(owner)), S.Wait(ms)), S.Finish(f, S.Completed(hash)));
      && n.fired == w.fired + [T.Firing(id, slot, owner)] && n.created == w.created + [S.Creation(f, Some(w.clock + ms))]
      && n.store.completed == w.store.completed + [T.Firing(id, slot, owner)]
  {
    var f := S.Flight(id, w.store.rows[id].trigger.nextFireAt, owner, w.clock);
    TickClaimsExactly(w, owner, f);
  }
}
