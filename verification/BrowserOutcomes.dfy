/**
 What each event means for a browser session: who may use it, when its driver runs and stops, and which durable
 state it ends with.
 */
module BrowserOutcomes {
  import opened Wrappers
  import opened BrowserBroker

  /** No operation of the session is under way. */
  ghost predicate Unused(b: Broker, id: SessionId) { forall op | op in b.ops :: b.ops[op].session != id }

  lemma UnusedIff(b: Broker, id: SessionId)
    requires OpsCounted(b) && id in b.sessions
    ensures Unused(b, id) <==> b.sessions[id].activeOperations == 0
  {
    if Unused(b, id) {
      assert OpsOf(b.ops, id) == {};
    } else {
      var op :| op in b.ops && b.ops[op].session == id;
      assert op in OpsOf(b.ops, id);
    }
  }

  /** All sessions but one, and what has been written, are as they were. */
  predicate SparesOthers(b: Broker, n: Broker, id: SessionId) {
    && n.closingAll == b.closingAll && n.issued == b.issued
    && (forall other | other in b.sessions && other != id :: other in n.sessions && n.sessions[other] == b.sessions[other])
    && (forall other | other in n.sessions && other != id :: other in b.sessions)
  }

  // ---- using a session

  /** A session is created exactly within the limit, under a new identifier, and while not everything is being closed. */
  lemma CreatesIff(b: Broker, id: SessionId, owner: OwnerName, now: int, limits: Limits)
    ensures
      var n := Next(b, Create(id, owner, now), limits);
      if b.closingAll.None? && |b.sessions| < limits.maxSessions && id !in b.issued then
        && n.sessions == b.sessions[id := Session(owner, 0, Open, false, false, true, now + limits.idleTtlMs)]
        && n.issued == b.issued + {id} && n.ops == b.ops && n.written == b.written && n.closingAll.None?
      else n == b
  {}

  /** The caller may use it: it is the caller's own, open, and in use or not expired. */
  ghost predicate MayUse(b: Broker, id: SessionId, owner: OwnerName, now: int) {
    && id in b.sessions && b.sessions[id].owner == owner && b.sessions[id].closing == Open
    && (!Unused(b, id) || now < b.sessions[id].expiresAt)
  }

  lemma OwnedIff(b: Broker, id: SessionId, owner: OwnerName, now: int)
    requires OpsCounted(b)
    ensures IsOwned(b, id, owner, now) <==> MayUse(b, id, owner, now)
  {
    if id in b.sessions { UnusedIff(b, id); }
  }

  /** An operation begins exactly on a session that the caller may use; the session does not idle while it lasts. */
  lemma BeginsIff(b: Broker, op: OpId, id: SessionId, owner: OwnerName, now: int, limits: Limits)
    requires OpsCounted(b) && op !in b.ops
    ensures
      var n := Next(b, Begin(op, id, owner, now), limits);
      if MayUse(b, id, owner, now) then
        && n.ops == b.ops[op := Op(id, false)] && SparesOthers(b, n, id) && n.written == b.written
        && id in n.sessions && !n.sessions[id].idleTimer && n.sessions[id].closing == Open
        && n.sessions[id].owner == owner && n.sessions[id].started == b.sessions[id].started
      else n == b
  {
    OwnedIff(b, id, owner, now);
  }

  /** The driver is started by the first operation that needs it, and not again while it starts or runs. */
  lemma StartsDriverOnce(b: Broker, op: OpId, limits: Limits)
    requires op in b.ops && b.ops[op].session in b.sessions
    ensures
      var n, id := Next(b, EnsureStarted(op), limits), b.ops[op].session;
      && n.ops == b.ops && n.written == b.written && SparesOthers(b, n, id) && id in n.sessions
      && n.sessions[id] == b.sessions[id].(starting := b.sessions[id].starting || !b.sessions[id].started)
  {}

  /** A start that ends well makes the driver run; only then may operations use it. */
  lemma RunsWhenStarted(b: Broker, id: SessionId, ok: bool, limits: Limits)
    requires id in b.sessions && b.sessions[id].starting
    ensures
      var n := Next(b, DriverStarted(id, ok), limits);
      && n.ops == b.ops && n.written == b.written && SparesOthers(b, n, id) && id in n.sessions
      && n.sessions[id] == b.sessions[id].(starting := false, started := b.sessions[id].started || ok)
  {}

  lemma NothingStartsUnasked(b: Broker, id: SessionId, ok: bool, limits: Limits)
    requires id in b.sessions && !b.sessions[id].starting
    ensures Next(b, DriverStarted(id, ok), limits) == b
  {}

  lemma UsesDriverIffStarted(b: Broker, op: OpId, limits: Limits)
    requires op in b.ops && b.ops[op].session in b.sessions
    ensures
      var n := Next(b, UseDriver(op), limits);
      && n.sessions == b.sessions && op in n.ops && n.ops == b.ops[op := n.ops[op]]
      && n.ops[op] == if b.sessions[b.ops[op].session].started then Op(b.ops[op].session, true) else b.ops[op]
  {}

  /** The last operation of an open session begins its idle time anew; a closing session has none. */
  lemma EndsOperation(b: Broker, op: OpId, now: int, limits: Limits)
    requires OpsCounted(b) && op in b.ops
    ensures
      var n, id := Next(b, Finish(op, now), limits), b.ops[op].session;
      && n.ops == b.ops - {op} && n.written == b.written && SparesOthers(b, n, id)
      && id in b.sessions && id in n.sessions
      && n.sessions[id].closing == b.sessions[id].closing && n.sessions[id].started == b.sessions[id].started
      && if Unused(n, id) && b.sessions[id].closing == Open
         then n.sessions[id].idleTimer && n.sessions[id].expiresAt == now + limits.idleTtlMs
         else n.sessions[id].idleTimer == b.sessions[id].idleTimer && n.sessions[id].expiresAt == b.sessions[id].expiresAt
  {
    var n, id := Next(b, Finish(op, now), limits), b.ops[op].session;
    RemoveOp(b.ops, op);
    assert op in OpsOf(b.ops, id);
    assert n.sessions[id].activeOperations == |OpsOf(n.ops, id)|;
    if Unused(n, id) { assert OpsOf(n.ops, id) == {}; }
    else {
      var other :| other in n.ops && n.ops[other].session == id;
      assert other in OpsOf(n.ops, id);
    }
  }

  // ---- closing

  /** A close begins with the durable state it aims at; one that is under way is joined, and keeps its own. */
  predicate BeginsToClose(s: Session, t: Session, goal: DurableState) {
    if s.closing == Open then t == s.(closing := Draining(goal), idleTimer := false) else t == s
  }

  /** The owner's close aims at CLOSED, and reaches exactly a session that the owner may use. */
  lemma ClosesIff(b: Broker, id: SessionId, owner: OwnerName, now: int, limits: Limits)
    requires OpsCounted(b)
    ensures
      var n := Next(b, Close(id, owner, now), limits);
      if MayUse(b, id, owner, now) then
        && n.ops == b.ops && n.written == b.written && SparesOthers(b, n, id)
        && id in n.sessions && n.sessions[id] == b.sessions[id].(closing := Draining(Closed), idleTimer := false)
      else n == b
  {
    OwnedIff(b, id, owner, now);
  }

  /** The idle timer aims at EXPIRED, and closes an open session that is not in use. */
  lemma ExpiresIff(b: Broker, id: SessionId, limits: Limits)
    requires Inv(b, limits)
    ensures
      var n := Next(b, IdleFires(id), limits);
      if id in b.sessions && b.sessions[id].idleTimer then
        && b.sessions[id].closing == Open && Unused(b, id)
        && n.ops == b.ops && n.written == b.written && SparesOthers(b, n, id)
        && id in n.sessions && n.sessions[id] == b.sessions[id].(closing := Draining(Expired), idleTimer := false)
      else n == b
  {
    if id in b.sessions { UnusedIff(b, id); }
  }

  /** Closing everything begins to close every session there is, once. */
  lemma ClosesEverything(b: Broker, limits: Limits)
    ensures
      var n := Next(b, CloseAll, limits);
      if b.closingAll.Some? then n == b
      else
        && n.ops == b.ops && n.written == b.written && n.issued == b.issued && n.closingAll == Some(b.sessions.Keys)
        && n.sessions.Keys == b.sessions.Keys
        && forall id | id in b.sessions :: BeginsToClose(b.sessions[id], n.sessions[id], Closed)
  {}

  /** It is over exactly when none of those sessions is left. */
  lemma EverythingIsClosed(b: Broker, limits: Limits)
    requires b.closingAll.Some?
    ensures
      var n := Next(b, AllClosed, limits);
      n == if forall id | id in b.closingAll.value :: id !in b.sessions then b.(closingAll := None) else b
  {
    if forall id | id in b.closingAll.value :: id !in b.sessions { assert b.closingAll.value !! b.sessions.Keys; }
  }

  /** The driver is told to stop exactly when a closing session is no longer in use. */
  lemma StopsDriverIff(b: Broker, id: SessionId, limits: Limits)
    requires OpsCounted(b)
    ensures
      var n := Next(b, Drained(id), limits);
      if id in b.sessions && b.sessions[id].closing.Draining? && Unused(b, id) then
        && n.ops == b.ops && n.written == b.written && SparesOthers(b, n, id) && id in n.sessions
        && n.sessions[id].closing == Stopping(b.sessions[id].closing.goal) && !n.sessions[id].started
      else n == b
  {
    if id in b.sessions { UnusedIff(b, id); }
  }

  /**
   A session whose driver has stopped and whose state could be written is gone, with the state its close aimed
   at. Otherwise it is cleaned up, and FAILED if that could be written.
   */
  lemma EndsWithState(b: Broker, id: SessionId, ok: bool, recorded: bool, failureRecorded: bool, limits: Limits)
    requires id in b.sessions && b.sessions[id].closing.Stopping? && !b.sessions[id].starting
    ensures
      var n := Next(b, DriverStopped(id, ok, recorded, failureRecorded), limits);
      && n.ops == b.ops && SparesOthers(b, n, id)
      && (ok && recorded ==> id !in n.sessions && n.written == b.written[id := b.sessions[id].closing.goal])
      && (!(ok && recorded) ==>
            && id in n.sessions && n.sessions[id].closing == CleaningUp
            && n.written == if failureRecorded then b.written[id := Failed] else b.written)
  {}

  lemma StopWaitsForStart(b: Broker, id: SessionId, ok: bool, recorded: bool, failureRecorded: bool, limits: Limits)
    requires id in b.sessions && (b.sessions[id].starting || !b.sessions[id].closing.Stopping?)
    ensures Next(b, DriverStopped(id, ok, recorded, failureRecorded), limits) == b
  {}

  lemma CleanedIsGone(b: Broker, id: SessionId, limits: Limits)
    ensures
      var n := Next(b, CleanedUp(id), limits);
      if id in b.sessions && b.sessions[id].closing == CleaningUp
      then id !in n.sessions && SparesOthers(b, n, id) && n.ops == b.ops && n.written == b.written
      else n == b
  {}

  /** An unused session that its owner closes, and whose driver stops well, ends CLOSED and is gone. */
  lemma ClosedAsAsked(b: Broker, id: SessionId, owner: OwnerName, now: int, failureRecorded: bool, limits: Limits)
    requires Inv(b, limits) && MayUse(b, id, owner, now) && Unused(b, id) && !b.sessions[id].starting
    ensures
      var closing := Next(b, Close(id, owner, now), limits);
      var stopping := Next(closing, Drained(id), limits);
      var n := Next(stopping, DriverStopped(id, true, true, failureRecorded), limits);
      && id !in n.sessions && id in n.written && n.written[id] == Closed
  {
    OwnedIff(b, id, owner, now);
    UnusedIff(b, id);
  }
}
