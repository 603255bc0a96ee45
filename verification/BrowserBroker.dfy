/**
 Browser sessions: operations share a session's driver, closing drains them first, and the broker
 can close everything. One step stands for one stretch of code without an await.
 */
module BrowserBroker {
  import opened Wrappers

  type SessionId(==, !new) = nat
  type OpId(==, !new) = nat
  type OwnerName = string

  datatype DurableState = Closed | Expired | Failed

  /** How far a close has come: waiting for operations, stopping the driver, or cleaning up after a failure. */
  datatype Closing = Open | Draining(goal: DurableState) | Stopping(goal: DurableState) | CleaningUp

  datatype Session = Session(
    owner: OwnerName, activeOperations: int, closing: Closing, started: bool, starting: bool,
    idleTimer: bool, expiresAt: int)

  /** Where an operation stands: waiting for the driver to start, or using it. */
  datatype Op = Op(session: SessionId, usesDriver: bool)

  datatype Broker = Broker(
    sessions: map<SessionId, Session>,
    ops: map<OpId, Op>,
    /** The pending `closeAll`, with the sessions it set out to close. */
    closingAll: Option<set<SessionId>>,
    /** Histories: identifiers given out, and durable terminal states written. */
    issued: set<SessionId>,
    written: map<SessionId, DurableState>)

  datatype Limits = Limits(maxSessions: nat, idleTtlMs: int)

  datatype Step =
    | Create(id: SessionId, owner: OwnerName, now: int)
    | Begin(op: OpId, id: SessionId, owner: OwnerName, now: int)
    | EnsureStarted(op: OpId)
    | DriverStarted(id: SessionId, ok: bool)
    | UseDriver(op: OpId)
    | Finish(op: OpId, now: int)
    | Close(id: SessionId, owner: OwnerName, now: int)
    | IdleFires(id: SessionId)
    | Drained(id: SessionId)
    | DriverStopped(id: SessionId, ok: bool, recorded: bool, failureRecorded: bool)
    | CleanedUp(id: SessionId)
    | CloseAll
    | AllClosed

  /** `#owned`. */
  predicate IsOwned(b: Broker, id: SessionId, owner: OwnerName, now: int) {
    && id in b.sessions && b.sessions[id].closing.Open?
    && !(b.sessions[id].activeOperations == 0 && b.sessions[id].expiresAt <= now)
    && b.sessions[id].owner == owner
  }

  function CreateStep(b: Broker, id: SessionId, owner: OwnerName, limits: Limits, now: int): Broker {
    if b.closingAll.Some? || |b.sessions| >= limits.maxSessions || id in b.issued then b
    else
      b.(sessions := b.sessions[id := Session(owner, 0, Open, false, false, true, now + limits.idleTtlMs)],
         issued := b.issued + {id})
  }

  function BeginStep(b: Broker, op: OpId, id: SessionId, owner: OwnerName, now: int): Broker {
    if op in b.ops || !IsOwned(b, id, owner, now) then b
    else
      var s := b.sessions[id];
      b.(sessions := b.sessions[id := s.(idleTimer := false, activeOperations := s.activeOperations + 1)],
         ops := b.ops[op := Op(id, false)])
  }

  /** `#ensureStarted` up to its await: the first operation starts the driver, the others wait for it. */
  function EnsureStartedStep(b: Broker, op: OpId): Broker {
    if op !in b.ops || b.ops[op].session !in b.sessions then b else
    var id := b.ops[op].session;
    if b.sessions[id].started || b.sessions[id].starting then b
    else b.(sessions := b.sessions[id := b.sessions[id].(starting := true)])
  }

  function DriverStartedStep(b: Broker, id: SessionId, ok: bool): Broker {
    if id !in b.sessions || !b.sessions[id].starting then b
    else b.(sessions := b.sessions[id := b.sessions[id].(starting := false, started := b.sessions[id].started || ok)])
  }

  function UseDriverStep(b: Broker, op: OpId): Broker {
    if op !in b.ops || b.ops[op].session !in b.sessions || !b.sessions[b.ops[op].session].started then b
    else b.(ops := b.ops[op := b.ops[op].(usesDriver := true)])
  }

  /** `#finishOperation`: the last operation lets a drain go on, or arms the idle timer of an open session. */
  function FinishStep(b: Broker, op: OpId, limits: Limits, now: int): Broker {
    if op !in b.ops then b else
    var id := b.ops[op].session;
    if id !in b.sessions then b.(ops := b.ops - {op}) else
    var s := b.sessions[id];
    var active := if s.activeOperations > 0 then s.activeOperations - 1 else 0;
    var left :=
      if active == 0 && s.closing.Open?
      then s.(activeOperations := active, idleTimer := true, expiresAt := now + limits.idleTtlMs)
      else s.(activeOperations := active);
    b.(sessions := b.sessions[id := left], ops := b.ops - {op})
  }

  /** `#closeManagedSession` up to its first await; a close that is under way is joined. */
  function ClosingSession(s: Session, goal: DurableState): Session {
    if s.closing.Open? then s.(closing := Draining(goal), idleTimer := false) else s
  }

  function CloseStep(b: Broker, id: SessionId, goal: DurableState): Broker {
    if id !in b.sessions then b else b.(sessions := b.sessions[id := ClosingSession(b.sessions[id], goal)])
  }

  function IdleStep(b: Broker, id: SessionId): Broker {
    if id !in b.sessions || !b.sessions[id].idleTimer || !b.sessions[id].closing.Open? || b.sessions[id].activeOperations > 0
    then b
    else CloseStep(b, id, Expired)
  }

  /** `#waitForOperations` is over: the driver is told to stop. */
  function DrainedStep(b: Broker, id: SessionId): Broker {
    if !(id in b.sessions && b.sessions[id].closing.Draining? && b.sessions[id].activeOperations == 0) then b
    else
      var s := b.sessions[id];
      b.(sessions := b.sessions[id := s.(closing := Stopping(s.closing.goal), started := false)])
  }

  /** The stop ends; the flags say which durable writes then succeed. A stop waits for a start under way. */
  function DriverStoppedStep(b: Broker, id: SessionId, ok: bool, recorded: bool, failureRecorded: bool): Broker {
    if !(id in b.sessions && b.sessions[id].closing.Stopping? && !b.sessions[id].starting) then b
    else if ok && recorded
    then b.(sessions := b.sessions - {id}, written := b.written[id := b.sessions[id].closing.goal])
    else
      b.(sessions := b.sessions[id := b.sessions[id].(closing := CleaningUp)],
         written := if failureRecorded then b.written[id := Failed] else b.written)
  }

  function CleanedUpStep(b: Broker, id: SessionId): Broker {
    if id in b.sessions && b.sessions[id].closing.CleaningUp? then b.(sessions := b.sessions - {id}) else b
  }

  function AllClosing(sessions: map<SessionId, Session>): map<SessionId, Session> {
    map id | id in sessions :: ClosingSession(sessions[id], Closed)
  }

  function CloseAllStep(b: Broker): Broker {
    if b.closingAll.Some? then b else b.(sessions := AllClosing(b.sessions), closingAll := Some(b.sessions.Keys))
  }

  function AllClosedStep(b: Broker): Broker {
    if b.closingAll.Some? && b.closingAll.value !! b.sessions.Keys then b.(closingAll := None) else b
  }

  function Next(b: Broker, step: Step, limits: Limits): Broker {
    match step
    case Create(id, owner, now) => CreateStep(b, id, owner, limits, now)
    case Begin(op, id, owner, now) => BeginStep(b, op, id, owner, now)
    case EnsureStarted(op) => EnsureStartedStep(b, op)
    case DriverStarted(id, ok) => DriverStartedStep(b, id, ok)
    case UseDriver(op) => UseDriverStep(b, op)
    case Finish(op, now) => FinishStep(b, op, limits, now)
    case Close(id, owner, now) => if IsOwned(b, id, owner, now) then CloseStep(b, id, Closed) else b
    case IdleFires(id) => IdleStep(b, id)
    case Drained(id) => DrainedStep(b, id)
    case DriverStopped(id, ok, recorded, failed) => DriverStoppedStep(b, id, ok, recorded, failed)
    case CleanedUp(id) => CleanedUpStep(b, id)
    case CloseAll => CloseAllStep(b)
    case AllClosed => AllClosedStep(b)
  }

  const EMPTY := Broker(map[], map[], None, {}, map[])

  function AfterFrom(b: Broker, steps: seq<Step>, limits: Limits): Broker
    decreases |steps|
  {
    if steps == [] then b else AfterFrom(Next(b, steps[0], limits), steps[1..], limits)
  }

  function After(steps: seq<Step>, limits: Limits): Broker { AfterFrom(EMPTY, steps, limits) }

  // ---- what always holds

  function OpsOf(ops: map<OpId, Op>, id: SessionId): set<OpId> { set op | op in ops && ops[op].session == id }

  /** Operations are counted right, and each belongs to a session that is there. */
  ghost predicate OpsCounted(b: Broker) {
    && (forall op | op in b.ops :: b.ops[op].session in b.sessions)
    && (forall id | id in b.sessions :: b.sessions[id].activeOperations == |OpsOf(b.ops, id)|)
  }

  /** A session whose driver is being stopped has no operation left; an idle timer runs only on an unused open one. */
  ghost predicate SessionFits(s: Session) {
    && (s.closing.Stopping? || s.closing.CleaningUp? ==> s.activeOperations == 0)
    && (s.idleTimer ==> s.closing.Open? && s.activeOperations == 0)
  }

  ghost predicate SessionsFit(b: Broker, limits: Limits) {
    && (forall id | id in b.sessions :: SessionFits(b.sessions[id]))
    && |b.sessions| <= limits.maxSessions
  }

  /** Identifiers are never reused, and a terminal state is written only for a session that has stopped. */
  ghost predicate RecordsFit(b: Broker) {
    && b.sessions.Keys <= b.issued && b.written.Keys <= b.issued
    && (forall id | id in b.sessions && !b.sessions[id].closing.CleaningUp? :: id !in b.written)
  }

  /** While everything is being closed, nothing else is there and all that is there is closing. */
  ghost predicate CloseAllFits(b: Broker) {
    b.closingAll.Some? ==>
      b.sessions.Keys <= b.closingAll.value && forall id | id in b.sessions :: !b.sessions[id].closing.Open?
  }

  ghost predicate Inv(b: Broker, limits: Limits) {
    OpsCounted(b) && SessionsFit(b, limits) && RecordsFit(b) && CloseAllFits(b)
  }

  // ---- kept by every step

  lemma AddOp(ops: map<OpId, Op>, op: OpId, o: Op)
    requires op !in ops
    ensures OpsOf(ops[op := o], o.session) == OpsOf(ops, o.session) + {op}
    ensures |OpsOf(ops[op := o], o.session)| == |OpsOf(ops, o.session)| + 1
    ensures forall id | id != o.session :: OpsOf(ops[op := o], id) == OpsOf(ops, id)
  {}

  lemma RemoveOp(ops: map<OpId, Op>, op: OpId)
    requires op in ops
    ensures OpsOf(ops - {op}, ops[op].session) == OpsOf(ops, ops[op].session) - {op}
    ensures |OpsOf(ops - {op}, ops[op].session)| == |OpsOf(ops, ops[op].session)| - 1
    ensures forall id | id != ops[op].session :: OpsOf(ops - {op}, id) == OpsOf(ops, id)
  {
    assert op in OpsOf(ops, ops[op].session);
  }

  lemma SameOps(ops: map<OpId, Op>, op: OpId, o: Op)
    requires op in ops && o.session == ops[op].session
    ensures forall id :: OpsOf(ops[op := o], id) == OpsOf(ops, id)
  {}

  /** A session changes in place, and its operations do not. */
  lemma ChangeKeepsInv(b: Broker, id: SessionId, s: Session, limits: Limits)
    requires Inv(b, limits) && id in b.sessions
    requires s.activeOperations == b.sessions[id].activeOperations && SessionFits(s)
    requires s.closing.Open? ==> b.sessions[id].closing.Open?
    requires b.sessions[id].closing.CleaningUp? ==> s.closing.CleaningUp?
    ensures Inv(b.(sessions := b.sessions[id := s]), limits)
  {
    assert b.sessions[id := s].Keys == b.sessions.Keys;
    assert |b.sessions[id := s]| == |b.sessions[id := s].Keys| == |b.sessions.Keys|;
  }

  /** A session that has no operations leaves. */
  lemma LeaveKeepsInv(b: Broker, id: SessionId, limits: Limits)
    requires Inv(b, limits) && id in b.sessions && b.sessions[id].activeOperations == 0
    ensures Inv(b.(sessions := b.sessions - {id}), limits)
  {
    var n := b.sessions - {id};
    assert n.Keys == b.sessions.Keys - {id};
    assert |n| == |n.Keys| < |b.sessions.Keys|;
    forall op | op in b.ops ensures b.ops[op].session in n {
      assert b.ops[op].session == id ==> op in OpsOf(b.ops, id);
    }
  }

  lemma CreateKeepsInv(b: Broker, id: SessionId, owner: OwnerName, limits: Limits, now: int)
    requires Inv(b, limits)
    ensures Inv(CreateStep(b, id, owner, limits, now), limits)
  {
    var n := CreateStep(b, id, owner, limits, now);
    if n != b {
      NewSessionHasNoOps(b.ops, b.sessions, id);
      MapGrows(b.sessions, id, n.sessions[id]);
      NewSessionCounted(b, n, id);
    }
  }

  lemma NewSessionCounted(b: Broker, n: Broker, id: SessionId)
    requires OpsCounted(b) && n.ops == b.ops && id in n.sessions && n.sessions == b.sessions[id := n.sessions[id]]
    requires n.sessions[id].activeOperations == 0 && OpsOf(b.ops, id) == {}
    ensures OpsCounted(n)
  {}

  lemma MapGrows(m: map<SessionId, Session>, id: SessionId, s: Session)
    requires id !in m
    ensures |m[id := s]| == |m| + 1
  {
    assert m[id := s].Keys == m.Keys + {id};
    assert |m[id := s]| == |m[id := s].Keys|;
    assert |m| == |m.Keys|;
  }

  lemma NewSessionHasNoOps(ops: map<OpId, Op>, sessions: map<SessionId, Session>, id: SessionId)
    requires id !in sessions && forall op | op in ops :: ops[op].session in sessions
    ensures OpsOf(ops, id) == {}
  {}

  lemma BeginCounted(b: Broker, op: OpId, id: SessionId, s: Session)
    requires OpsCounted(b) && op !in b.ops && id in b.sessions && s.activeOperations == b.sessions[id].activeOperations + 1
    ensures OpsCounted(b.(sessions := b.sessions[id := s], ops := b.ops[op := Op(id, false)]))
  {
    AddOp(b.ops, op, Op(id, false));
  }

  lemma SameSize(m: map<SessionId, Session>, id: SessionId, s: Session)
    requires id in m
    ensures m[id := s].Keys == m.Keys && |m[id := s]| == |m|
  {
    assert |m[id := s]| == |m[id := s].Keys|;
    assert |m| == |m.Keys|;
  }

  lemma BeginKeepsInv(b: Broker, op: OpId, id: SessionId, owner: OwnerName, now: int, limits: Limits)
    requires Inv(b, limits)
    ensures Inv(BeginStep(b, op, id, owner, now), limits)
  {
    if op !in b.ops && IsOwned(b, id, owner, now) {
      var s := b.sessions[id].(idleTimer := false, activeOperations := b.sessions[id].activeOperations + 1);
      BeginCounted(b, op, id, s);
      SameSize(b.sessions, id, s);
    }
  }

  lemma FinishKeepsInv(b: Broker, op: OpId, limits: Limits, now: int)
    requires Inv(b, limits)
    ensures Inv(FinishStep(b, op, limits, now), limits)
  {
    if op in b.ops {
      var n, id := FinishStep(b, op, limits, now), b.ops[op].session;
      RemoveOp(b.ops, op);
      assert n.sessions.Keys == b.sessions.Keys;
      assert |n.sessions| == |n.sessions.Keys| == |b.sessions.Keys|;
      assert |OpsOf(b.ops, id)| > 0;
    }
  }

  lemma CloseKeepsInv(b: Broker, id: SessionId, goal: DurableState, limits: Limits)
    requires Inv(b, limits)
    ensures Inv(CloseStep(b, id, goal), limits)
  {
    if id in b.sessions { ChangeKeepsInv(b, id, ClosingSession(b.sessions[id], goal), limits); }
  }

  lemma DriverStoppedKeepsInv(b: Broker, id: SessionId, ok: bool, recorded: bool, failed: bool, limits: Limits)
    requires Inv(b, limits)
    ensures Inv(DriverStoppedStep(b, id, ok, recorded, failed), limits)
  {
    if id in b.sessions && b.sessions[id].closing.Stopping? {
      LeaveKeepsInv(b, id, limits);
      ChangeKeepsInv(b, id, b.sessions[id].(closing := CleaningUp), limits);
    }
  }

  lemma CloseAllKeepsInv(b: Broker, limits: Limits)
    requires Inv(b, limits)
    ensures Inv(CloseAllStep(b), limits)
  {
    var n := CloseAllStep(b);
    assert n.sessions.Keys == b.sessions.Keys;
    assert |n.sessions| == |n.sessions.Keys| == |b.sessions.Keys|;
    forall id | id in n.sessions
      ensures SessionFits(n.sessions[id]) && n.sessions[id].activeOperations == b.sessions[id].activeOperations
    {
      assert SessionFits(b.sessions[id]);
    }
  }

  lemma EnsureStartedKeepsInv(b: Broker, op: OpId, limits: Limits)
    requires Inv(b, limits)
    ensures Inv(EnsureStartedStep(b, op), limits)
  {
    if op in b.ops { ChangeKeepsInv(b, b.ops[op].session, b.sessions[b.ops[op].session].(starting := true), limits); }
  }

  lemma DriverStartedKeepsInv(b: Broker, id: SessionId, ok: bool, limits: Limits)
    requires Inv(b, limits)
    ensures Inv(DriverStartedStep(b, id, ok), limits)
  {
    if id in b.sessions {
      ChangeKeepsInv(b, id, b.sessions[id].(starting := false, started := b.sessions[id].started || ok), limits);
    }
  }

  lemma UseDriverKeepsInv(b: Broker, op: OpId, limits: Limits)
    requires Inv(b, limits)
    ensures Inv(UseDriverStep(b, op), limits)
  {
    if op in b.ops { SameOps(b.ops, op, b.ops[op].(usesDriver := true)); }
  }

  lemma DrainedKeepsInv(b: Broker, id: SessionId, limits: Limits)
    requires Inv(b, limits)
    ensures Inv(DrainedStep(b, id), limits)
  {
    if id in b.sessions && b.sessions[id].closing.Draining? && b.sessions[id].activeOperations == 0 {
      ChangeKeepsInv(b, id, b.sessions[id].(closing := Stopping(b.sessions[id].closing.goal), started := false), limits);
    }
  }

  lemma CleanedUpKeepsInv(b: Broker, id: SessionId, limits: Limits)
    requires Inv(b, limits)
    ensures Inv(CleanedUpStep(b, id), limits)
  {
    if id in b.sessions && b.sessions[id].closing.CleaningUp? { LeaveKeepsInv(b, id, limits); }
  }

  lemma IdleKeepsInv(b: Broker, id: SessionId, limits: Limits)
    requires Inv(b, limits)
    ensures Inv(IdleStep(b, id), limits)
  {
    CloseKeepsInv(b, id, Expired, limits);
  }

  lemma AllClosedKeepsInv(b: Broker, limits: Limits)
    requires Inv(b, limits)
    ensures Inv(AllClosedStep(b), limits)
  {}

  lemma StepKeepsInv(b: Broker, step: Step, limits: Limits)
    requires Inv(b, limits)
    ensures Inv(Next(b, step, limits), limits)
  {
    match step
    case Create(id, owner, now) => CreateKeepsInv(b, id, owner, limits, now);
    case Begin(op, id, owner, now) => BeginKeepsInv(b, op, id, owner, now, limits);
    case EnsureStarted(op) => EnsureStartedKeepsInv(b, op, limits);
    case DriverStarted(id, ok) => DriverStartedKeepsInv(b, id, ok, limits);
    case UseDriver(op) => UseDriverKeepsInv(b, op, limits);
    case Finish(op, now) => FinishKeepsInv(b, op, limits, now);
    case Close(id, owner, now) => CloseKeepsInv(b, id, Closed, limits);
    case IdleFires(id) => IdleKeepsInv(b, id, limits);
    case Drained(id) => DrainedKeepsInv(b, id, limits);
    case DriverStopped(id, ok, recorded, failed) => DriverStoppedKeepsInv(b, id, ok, recorded, failed, limits);
    case CleanedUp(id) => CleanedUpKeepsInv(b, id, limits);
    case CloseAll => CloseAllKeepsInv(b, limits);
    case AllClosed => AllClosedKeepsInv(b, limits);
  }

  lemma {:induction false} StepsKeepInv(b: Broker, steps: seq<Step>, limits: Limits)
    requires Inv(b, limits)
    ensures Inv(AfterFrom(b, steps, limits), limits)
    decreases |steps|
  {
    if steps != [] {
      StepKeepsInv(b, steps[0], limits);
      StepsKeepInv(Next(b, steps[0], limits), steps[1..], limits);
    }
  }

  /** Whoever uses a driver finds it started. */
  ghost predicate DriversUsed(b: Broker) {
    forall op | op in b.ops && b.ops[op].usesDriver :: b.ops[op].session in b.sessions && b.sessions[b.ops[op].session].started
  }

  /** A session without operations has none that uses its driver. */
  lemma UnusedIsNotUsed(b: Broker, limits: Limits, id: SessionId)
    requires Inv(b, limits) && id in b.sessions && b.sessions[id].activeOperations == 0
    ensures forall op | op in b.ops :: b.ops[op].session != id
  {
    forall op | op in b.ops ensures b.ops[op].session != id {
      assert b.ops[op].session == id ==> op in OpsOf(b.ops, id);
    }
  }

  predicate IsStopping(step: Step) { step.Drained? || step.DriverStopped? || step.CleanedUp? }

  lemma StartedStays(b: Broker, step: Step, limits: Limits, id: SessionId)
    requires id in b.sessions && b.sessions[id].started && !IsStopping(step)
    requires id in b.issued
    ensures id in Next(b, step, limits).sessions && Next(b, step, limits).sessions[id].started
  {}

  lemma UsersAreStarted(b: Broker, step: Step, limits: Limits, op: OpId)
    requires DriversUsed(b) && op in Next(b, step, limits).ops && Next(b, step, limits).ops[op].usesDriver
    ensures var id := Next(b, step, limits).ops[op].session; id in b.sessions && b.sessions[id].started
  {}

  lemma OtherSessionsStay(b: Broker, step: Step, limits: Limits, id: SessionId)
    requires IsStopping(step) && step.id != id && id in b.sessions
    ensures id in Next(b, step, limits).sessions && Next(b, step, limits).sessions[id] == b.sessions[id]
  {}

  lemma StopsUnusedOnly(b: Broker, step: Step, limits: Limits)
    requires Inv(b, limits) && IsStopping(step) && Next(b, step, limits) != b
    ensures step.id in b.sessions && forall op | op in b.ops :: b.ops[op].session != step.id
  {
    assert SessionFits(b.sessions[step.id]);
    UnusedIsNotUsed(b, limits, step.id);
  }

  lemma StepKeepsDrivers(b: Broker, step: Step, limits: Limits)
    requires Inv(b, limits) && DriversUsed(b)
    ensures DriversUsed(Next(b, step, limits))
  {
    var n := Next(b, step, limits);
    if n == b { return; }
    if IsStopping(step) { StopsUnusedOnly(b, step, limits); }
    forall op | op in n.ops && n.ops[op].usesDriver
      ensures n.ops[op].session in n.sessions && n.sessions[n.ops[op].session].started
    {
      var id := n.ops[op].session;
      UsersAreStarted(b, step, limits, op);
      if !IsStopping(step) { StartedStays(b, step, limits, id); } else { OtherSessionsStay(b, step, limits, id); }
    }
  }

  lemma {:induction false} StepsKeepDrivers(b: Broker, steps: seq<Step>, limits: Limits)
    requires Inv(b, limits) && DriversUsed(b)
    ensures DriversUsed(AfterFrom(b, steps, limits))
    decreases |steps|
  {
    if steps != [] {
      StepKeepsInv(b, steps[0], limits);
      StepKeepsDrivers(b, steps[0], limits);
      StepsKeepDrivers(Next(b, steps[0], limits), steps[1..], limits);
    }
  }

  // ---- what this gives

  /**
   In every history: there are never more sessions than allowed, a driver is being stopped only when no
   operation of its session is left, an operation uses a driver only while it is started and nobody
   stops it, and an idle timer runs only on an unused session that is open.
   */
  lemma DrainsBeforeStopping(steps: seq<Step>, limits: Limits, id: SessionId)
    requires id in After(steps, limits).sessions
    ensures
      var b := After(steps, limits);
      var s := b.sessions[id];
      && |b.sessions| <= limits.maxSessions
      && (s.closing.Stopping? || s.closing.CleaningUp? ==> forall op | op in b.ops :: b.ops[op].session != id)
      && (forall op | op in b.ops && b.ops[op].session == id && b.ops[op].usesDriver ::
            s.started && (s.closing.Open? || s.closing.Draining?))
      && (s.idleTimer ==> s.closing.Open? && forall op | op in b.ops :: b.ops[op].session != id)
  {
    var b := After(steps, limits);
    StepsKeepInv(EMPTY, steps, limits);
    StepsKeepDrivers(EMPTY, steps, limits);
    if b.sessions[id].activeOperations == 0 { UnusedIsNotUsed(b, limits, id); }
  }

  lemma StaysClosing(b: Broker, step: Step, limits: Limits, id: SessionId)
    requires id in b.sessions && id in b.issued && !b.sessions[id].closing.Open?
    ensures id in Next(b, step, limits).sessions ==> !Next(b, step, limits).sessions[id].closing.Open?
  {}

  lemma NothingBegins(b: Broker, step: Step, limits: Limits, id: SessionId)
    requires id in b.sessions && !b.sessions[id].closing.Open?
    ensures OpsOf(Next(b, step, limits).ops, id) <= OpsOf(b.ops, id)
  {
    if step.Begin? || step.UseDriver? || step.Finish? { return; }
    assert Next(b, step, limits).ops == b.ops;
  }

  /** Nothing begins on a session once it is closing, and it never opens again. */
  lemma ClosingIsFinal(b: Broker, step: Step, limits: Limits, id: SessionId)
    requires Inv(b, limits) && id in b.sessions && !b.sessions[id].closing.Open?
    ensures
      var n := Next(b, step, limits);
      && OpsOf(n.ops, id) <= OpsOf(b.ops, id)
      && (id in n.sessions ==> !n.sessions[id].closing.Open?)
  {
    StaysClosing(b, step, limits, id);
    NothingBegins(b, step, limits, id);
  }

  lemma GoneStaysGone(b: Broker, step: Step, limits: Limits, id: SessionId)
    requires id in b.issued && id !in b.sessions
    ensures
      var n := Next(b, step, limits);
      && id in n.issued && id !in n.sessions
      && (id in n.written <==> id in b.written) && (id in b.written ==> n.written[id] == b.written[id])
  {}

  /** A closed session stays closed under its identifier, and its durable state stays as it was left. */
  lemma {:induction false} WrittenOnce(b: Broker, steps: seq<Step>, limits: Limits, id: SessionId)
    requires id in b.issued && id !in b.sessions
    ensures
      var n := AfterFrom(b, steps, limits);
      && id in n.issued && id !in n.sessions
      && (id in n.written <==> id in b.written) && (id in b.written ==> n.written[id] == b.written[id])
    decreases |steps|
  {
    if steps != [] {
      GoneStaysGone(b, steps[0], limits, id);
      WrittenOnce(Next(b, steps[0], limits), steps[1..], limits, id);
    }
  }

  /** A state that was written for a session that is still cleaning up is not written over. */
  lemma StepWritesOnce(b: Broker, step: Step, limits: Limits, id: SessionId)
    requires Inv(b, limits) && id in b.written
    ensures id in Next(b, step, limits).written && Next(b, step, limits).written[id] == b.written[id]
  {}

  /** When `closeAll` is over, no session is left. */
  lemma CloseAllLeavesNone(b: Broker, limits: Limits)
    requires Inv(b, limits) && b.closingAll.Some? && AllClosedStep(b).closingAll.None?
    ensures AllClosedStep(b).sessions == map[]
  {
    assert b.sessions.Keys <= b.closingAll.value && b.sessions.Keys * b.closingAll.value == {};
    assert b.sessions.Keys == {};
  }

  // ---- closing everything always can go through

  lemma FinishOne(b: Broker, op: OpId, limits: Limits)
    requires Inv(b, limits) && op in b.ops && !b.sessions[b.ops[op].session].closing.Open?
    ensures
      var n, id := FinishStep(b, op, limits, 0), b.ops[op].session;
      && n.closingAll == b.closingAll && n.sessions.Keys == b.sessions.Keys
      && n.sessions[id] == b.sessions[id].(activeOperations := n.sessions[id].activeOperations)
      && OpsOf(n.ops, id) < OpsOf(b.ops, id)
  {
    RemoveOp(b.ops, op);
    assert op in OpsOf(b.ops, b.ops[op].session);
  }

  /** The operations of a closing session end one after the other. */
  lemma {:induction false} FinishAll(b: Broker, id: SessionId, limits: Limits) returns (steps: seq<Step>)
    requires Inv(b, limits) && id in b.sessions && !b.sessions[id].closing.Open?
    ensures
      var n := AfterFrom(b, steps, limits);
      && Inv(n, limits) && n.closingAll == b.closingAll && n.sessions.Keys == b.sessions.Keys
      && n.sessions[id] == b.sessions[id].(activeOperations := 0)
    decreases OpsOf(b.ops, id)
  {
    if OpsOf(b.ops, id) == {} {
      steps := [];
    } else {
      var op :| op in OpsOf(b.ops, id);
      var n := Next(b, Finish(op, 0), limits);
      FinishKeepsInv(b, op, limits, 0);
      FinishOne(b, op, limits);
      var more := FinishAll(n, id, limits);
      steps := [Finish(op, 0)] + more;
      assert steps[1..] == more;
    }
  }

  /** The step that brings a closing session without operations nearer to its end. */
  function NextToEnd(id: SessionId, s: Session): Step {
    if s.starting then DriverStarted(id, false)
    else if s.closing.Draining? then Drained(id)
    else if s.closing.Stopping? then DriverStopped(id, true, true, false)
    else CleanedUp(id)
  }

  function ToGo(s: Session): nat {
    (if s.starting then 1 else 0)
    + match s.closing case Open => 4 case Draining(_) => 2 case Stopping(_) => 1 case CleaningUp => 0
  }

  lemma OneNearer(b: Broker, id: SessionId, limits: Limits)
    requires id in b.sessions && !b.sessions[id].closing.Open? && b.sessions[id].activeOperations == 0
    ensures
      var n := Next(b, NextToEnd(id, b.sessions[id]), limits);
      && n.closingAll == b.closingAll
      && (|| n.sessions.Keys == b.sessions.Keys - {id}
          || (&& n.sessions.Keys == b.sessions.Keys && ToGo(n.sessions[id]) < ToGo(b.sessions[id])
              && !n.sessions[id].closing.Open? && n.sessions[id].activeOperations == 0))
  {}

  lemma {:induction false} WindDown(b: Broker, id: SessionId, limits: Limits) returns (steps: seq<Step>)
    requires Inv(b, limits) && id in b.sessions
    requires !b.sessions[id].closing.Open? && b.sessions[id].activeOperations == 0
    ensures
      var n := AfterFrom(b, steps, limits);
      Inv(n, limits) && n.closingAll == b.closingAll && n.sessions.Keys == b.sessions.Keys - {id}
    decreases ToGo(b.sessions[id])
  {
    var step := NextToEnd(id, b.sessions[id]);
    var n := Next(b, step, limits);
    OneNearer(b, id, limits);
    StepKeepsInv(b, step, limits);
    steps := [step];
    assert steps[1..] == [];
    if id in n.sessions {
      var more := WindDown(n, id, limits);
      steps := [step] + more;
      assert steps[1..] == more;
    }
  }

  /** A closing session can be brought to its end. */
  lemma DrainOne(b: Broker, id: SessionId, limits: Limits) returns (steps: seq<Step>)
    requires Inv(b, limits) && id in b.sessions && !b.sessions[id].closing.Open?
    ensures
      var n := AfterFrom(b, steps, limits);
      Inv(n, limits) && n.closingAll == b.closingAll && n.sessions.Keys == b.sessions.Keys - {id}
  {
    var finish := FinishAll(b, id, limits);
    var last := WindDown(AfterFrom(b, finish, limits), id, limits);
    Concatenated(b, finish, last, limits);
    steps := finish + last;
  }

  lemma {:induction false} Concatenated(b: Broker, first: seq<Step>, second: seq<Step>, limits: Limits)
    ensures AfterFrom(b, first + second, limits) == AfterFrom(AfterFrom(b, first, limits), second, limits)
    decreases |first|
  {
    if first == [] {
      assert first + second == second;
    } else {
      assert (first + second)[1..] == first[1..] + second;
      Concatenated(Next(b, first[0], limits), first[1..], second, limits);
    }
  }

  /** From every state while `closeAll` is pending, some continuation ends it with no session left. */
  lemma {:induction false} CloseAllCanComplete(b: Broker, limits: Limits) returns (steps: seq<Step>)
    requires Inv(b, limits) && b.closingAll.Some?
    ensures AfterFrom(b, steps, limits).sessions == map[] && AfterFrom(b, steps, limits).closingAll.None?
    decreases |b.sessions.Keys|
  {
    if b.sessions.Keys == {} {
      steps := [AllClosed];
      assert b.sessions == map[];
      assert AfterFrom(b, steps, limits) == AfterFrom(AllClosedStep(b), steps[1..], limits) == AllClosedStep(b);
    } else {
      var id :| id in b.sessions;
      var one := DrainOne(b, id, limits);
      var rest := CloseAllCanComplete(AfterFrom(b, one, limits), limits);
      Concatenated(b, one, rest, limits);
      steps := one + rest;
    }
  }

  // ---- the broker's own methods

  class ManagedBrowserBroker {
    const limits: Limits
    var sessions: map<SessionId, Session>
    var operations: map<OpId, Op>
    var closeAllPromise: Option<set<SessionId>>
    ghost var issued: set<SessionId>
    ghost var written: map<SessionId, DurableState>

    ghost function State(): Broker
      reads this
    {
      Broker(sessions, operations, closeAllPromise, issued, written)
    }

    ghost predicate Valid()
      reads this
    {
      Inv(State(), limits)
    }

    constructor (limits: Limits)
      ensures Valid() && State() == EMPTY && this.limits == limits
    {
      this.limits := limits;
      sessions, operations, closeAllPromise, issued, written := map[], map[], None, {}, map[];
    }

    /** `create`, under an identifier that was never given out. */
    method Create(id: SessionId, owner: OwnerName, now: int) returns (created: bool)
      requires Valid() && id !in issued
      modifies this
      ensures Valid() && State() == CreateStep(old(State()), id, owner, limits, now)
      ensures created <==> old(closeAllPromise).None? && |old(sessions)| < limits.maxSessions
    {
      CreateKeepsInv(State(), id, owner, limits, now);
      ghost var next := CreateStep(State(), id, owner, limits, now);
      if closeAllPromise.Some? || |sessions| >= limits.maxSessions { return false; }
      sessions := sessions[id := Session(owner, 0, Open, false, false, true, now + limits.idleTtlMs)];
      issued := issued + {id};
      assert State() == next;
      created := true;
    }

    /** `#beginOperation`: refused on a session that is closing, expired or another's. */
    method BeginOperation(op: OpId, id: SessionId, owner: OwnerName, now: int) returns (begun: bool)
      requires Valid() && op !in operations
      modifies this`sessions, this`operations
      ensures Valid() && State() == BeginStep(old(State()), op, id, owner, now)
      ensures begun <==> IsOwned(old(State()), id, owner, now)
    {
      BeginKeepsInv(State(), op, id, owner, now, limits);
      if id !in sessions { return false; }
      var s := sessions[id];
      if !s.closing.Open? || (s.activeOperations == 0 && s.expiresAt <= now) || s.owner != owner { return false; }
      sessions := sessions[id := s.(idleTimer := false, activeOperations := s.activeOperations + 1)];
      operations := operations[op := Op(id, false)];
      begun := true;
    }

    /** `#finishOperation`: says whether a drain may now go on. */
    method FinishOperation(op: OpId, now: int) returns (drained: bool)
      requires Valid() && op in operations
      modifies this`sessions, this`operations
      ensures Valid() && State() == FinishStep(old(State()), op, limits, now)
      ensures drained <==> OpsOf(operations, old(operations)[op].session) == {}
    {
      FinishKeepsInv(State(), op, limits, now);
      ghost var next := FinishStep(State(), op, limits, now);
      var id := operations[op].session;
      var s := sessions[id];
      s := s.(activeOperations := if s.activeOperations > 0 then s.activeOperations - 1 else 0);
      if s.activeOperations == 0 && s.closing.Open? {
        s := s.(idleTimer := true, expiresAt := now + limits.idleTtlMs);
      }
      sessions, operations := sessions[id := s], operations - {op};
      assert State() == next;
      drained := s.activeOperations == 0;
    }

    /** `#closeEverySession` up to its await: every session there is begins to close. */
    method CloseAll()
      requires Valid()
      modifies this`sessions, this`closeAllPromise
      ensures Valid() && State() == CloseAllStep(old(State()))
    {
      ghost var next := CloseAllStep(State());
      CloseAllKeepsInv(State(), limits);
      if closeAllPromise.None? {
        closeAllPromise := Some(sessions.Keys);
        sessions := CloseEach(sessions);
      }
      assert State() == next;
    }

    static method CloseEach(before: map<SessionId, Session>) returns (after: map<SessionId, Session>)
      ensures after == AllClosing(before)
    {
      after := before;
      var todo := before.Keys;
      while todo != {}
        invariant todo <= before.Keys && after.Keys == before.Keys
        invariant forall id | id in todo :: after[id] == before[id]
        invariant forall id | id in before && id !in todo :: after[id] == ClosingSession(before[id], Closed)
        decreases |todo|
      {
        var id :| id in todo;
        todo := todo - {id};
        after := after[id := ClosingSession(after[id], Closed)];
      }
    }
  }
}
