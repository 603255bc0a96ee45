/**
 One registered MCP server: a transport that is created on demand, shared by concurrent
 operations, and stopped on failure, cancellation, idleness or request. Leases carry the
 generation they were taken under. One step stands for one stretch of code without an await.
 */
module McpSupervisor {
  import opened Wrappers

  type OpId(==, !new) = nat
  /** Transports are told apart by the order of their creation. */
  type TransportId(==, !new) = nat

  datatype Lease = Lease(transport: TransportId, generation: nat)

  type PromiseId(==, !new) = nat

  datatype Settling = Pending | Fulfilled | Rejected

  /** A catalog being read and compared, by the transport of whoever asked first. */
  datatype CatalogPromise = CatalogPromise(lease: Lease, settling: Settling)

  /** The registration's fields; `stopping` is the transport that the pending stop promise stops. */
  datatype Registration = Registration(
    transport: Option<TransportId>, generation: nat, stopping: Option<TransportId>, catalogValidated: bool,
    catalogPromise: Option<PromiseId>, activeOperations: int, idleTimer: Option<Lease>, failures: nat, retryAt: int)

  /**
   Where an operation stands; each stands at an await. An operation calls a tool or lists the tools: for
   a listing, `Calling` awaits the transport's catalog, or nothing where the expected one has been found.
   */
  datatype Phase =
    | Acquiring(waitsFor: Option<TransportId>)
    | Starting(lease: Lease)
    | Checking(lease: Lease, promise: PromiseId)
    | Calling(lease: Lease)
    | Cleaning(stopOf: TransportId)

  datatype Answer = Answer(op: OpId, lease: Lease)

  datatype Supervisor = Supervisor(
    reg: Registration,
    ops: map<OpId, Phase>,
    created: nat,
    promises: seq<CatalogPromise>,
    /** Histories: transports told to stop, catalogs that matched, results handed out. */
    stopped: seq<TransportId>,
    matched: set<Lease>,
    answers: seq<Answer>)

  /** `expectsCatalog`: the registration names the tools it expects. */
  datatype Limits = Limits(expectsCatalog: bool, maxBackoffMs: nat, idleEnabled: bool)

  /** How an awaited thing ended, and whether the caller's signal has fired by then. */
  datatype Outcome = Outcome(fulfilled: bool, aborted: bool)

  datatype Step =
    | Begin(op: OpId, now: int)
    | Acquire(op: OpId, outcome: Outcome, now: int)
    | Started(op: OpId, outcome: Outcome, now: int)
    | CatalogRead(promise: PromiseId, matches: bool)
    | Checked(op: OpId, outcome: Outcome, now: int)
    | Returned(op: OpId, outcome: Outcome, outputFits: bool, now: int)
    | StopEnded
    | Cleaned(op: OpId)
    | IdleFires
    | StopRequested

  function LeaseOf(p: Phase): Option<Lease> {
    match p
    case Starting(l) => Some(l)
    case Checking(l, _) => Some(l)
    case Calling(l) => Some(l)
    case _ => None
  }

  /** `#isCurrent`. */
  predicate IsCurrent(r: Registration, l: Lease) { r.transport == Some(l.transport) && r.generation == l.generation }

  function Pow2(n: nat): nat { if n == 0 then 1 else 2 * Pow2(n - 1) }

  /** `#recordFailure`: the backoff doubles with every failure up to its maximum. */
  function Failed(r: Registration, limits: Limits, now: int): Registration {
    var backoff := Pow2(r.failures) * 250;
    r.(failures := r.failures + 1, retryAt := now + if backoff < limits.maxBackoffMs then backoff else limits.maxBackoffMs)
  }

  /** The registration once its transport has been told to stop. */
  function Dropped(r: Registration): Registration {
    Registration(None, r.generation + 1, r.transport, false, None, r.activeOperations, None, r.failures, r.retryAt)
  }

  /** `#stopRegistration`, up to its await. */
  function StopRegistration(s: Supervisor, expected: Option<Lease>): Supervisor {
    if expected.Some? && !IsCurrent(s.reg, expected.value) then s
    else if s.reg.stopping.Some? then s
    else if s.reg.transport.None? then s.(reg := s.reg.(idleTimer := None))
    else s.(reg := Dropped(s.reg), stopped := s.stopped + [s.reg.transport.value])
  }

  /** `#endOperation`, with the idle timer that the last operation arms. */
  function EndOperation(s: Supervisor, op: OpId, limits: Limits): Supervisor {
    var active := if s.reg.activeOperations > 0 then s.reg.activeOperations - 1 else 0;
    var r := s.reg.(activeOperations := active);
    var timer :=
      if active == 0 && r.transport.Some? && r.stopping.None? && limits.idleEnabled
      then Some(Lease(r.transport.value, r.generation)) else r.idleTimer;
    s.(reg := r.(idleTimer := timer), ops := s.ops - {op})
  }

  /** After a stop was asked for: wait for it, if one is pending, and end. */
  function CleanUp(s: Supervisor, op: OpId, limits: Limits): Supervisor {
    if s.reg.stopping.Some? then s.(ops := s.ops[op := Cleaning(s.reg.stopping.value)]) else EndOperation(s, op, limits)
  }

  /** The `catch` block of an operation. */
  function Fail(s: Supervisor, op: OpId, lease: Option<Lease>, aborted: bool, limits: Limits, now: int): Supervisor {
    if aborted then
      if lease.Some? && IsCurrent(s.reg, lease.value) && s.reg.activeOperations == 1
      then CleanUp(StopRegistration(s, lease), op, limits)
      else EndOperation(s, op, limits)
    else if lease.Some? && IsCurrent(s.reg, lease.value)
    then CleanUp(StopRegistration(s.(reg := Failed(s.reg, limits, now)), lease), op, limits)
    else if lease.None? && s.reg.transport.None? && s.reg.stopping.None?
    then EndOperation(s.(reg := Failed(s.reg, limits, now)), op, limits)
    else EndOperation(s, op, limits)
  }

  function BeginStep(s: Supervisor, op: OpId, now: int): Supervisor {
    if op in s.ops || s.reg.retryAt > now then s
    else
      s.(reg := s.reg.(idleTimer := None, activeOperations := s.reg.activeOperations + 1),
         ops := s.ops[op := Acquiring(s.reg.stopping)])
  }

  /** `#acquireTransport`, from its await on. */
  function AcquireStep(s: Supervisor, op: OpId, outcome: Outcome, limits: Limits, now: int): Supervisor {
    if !(op in s.ops && s.ops[op].Acquiring?) then s
    else if !outcome.fulfilled then Fail(s, op, None, outcome.aborted, limits, now)
    else if s.ops[op].waitsFor.Some? && s.ops[op].waitsFor == s.reg.stopping then s
    else if s.reg.transport.Some? then
      s.(ops := s.ops[op := Starting(Lease(s.reg.transport.value, s.reg.generation))])
    else
      var lease := Lease(s.created, s.reg.generation + 1);
      s.(reg := s.reg.(transport := Some(lease.transport), generation := lease.generation),
         created := s.created + 1, ops := s.ops[op := Starting(lease)])
  }

  /** The transport has started, or failed to; then the catalog is looked at first, where one is expected. */
  function StartedStep(s: Supervisor, op: OpId, outcome: Outcome, limits: Limits, now: int): Supervisor {
    if !(op in s.ops && s.ops[op].Starting?) then s else
    var l := s.ops[op].lease;
    if !outcome.fulfilled || !IsCurrent(s.reg, l) then Fail(s, op, Some(l), outcome.aborted, limits, now)
    else if limits.expectsCatalog && !s.reg.catalogValidated then EnsureCatalog(s, op, l)
    else s.(ops := s.ops[op := Calling(l)])
  }

  /** `#ensureExpectedCatalog`: join the promise that is there, or have the catalog read under this lease. */
  function EnsureCatalog(s: Supervisor, op: OpId, l: Lease): Supervisor {
    if s.reg.catalogPromise.Some? then s.(ops := s.ops[op := Checking(l, s.reg.catalogPromise.value)])
    else
      s.(reg := s.reg.(catalogPromise := Some(|s.promises|)), promises := s.promises + [CatalogPromise(l, Pending)],
         ops := s.ops[op := Checking(l, |s.promises|)])
  }

  /** `#readAndValidateCatalog`, from its await on; `matches` if the tools came and are the expected ones. */
  function CatalogStep(s: Supervisor, q: PromiseId, matches: bool): Supervisor {
    if q >= |s.promises| || !s.promises[q].settling.Pending? then s else
    var l := s.promises[q].lease;
    if matches && IsCurrent(s.reg, l) then
      s.(reg := s.reg.(catalogValidated := true), matched := s.matched + {l},
         promises := s.promises[q := CatalogPromise(l, Fulfilled)])
    else s.(promises := s.promises[q := CatalogPromise(l, Rejected)])
  }

  /** The wait for the catalog ends with the promise or with the caller's signal, and goes on until then. */
  function CheckedStep(s: Supervisor, op: OpId, outcome: Outcome, limits: Limits, now: int): Supervisor {
    if !(op in s.ops && s.ops[op].Checking? && s.ops[op].promise < |s.promises|) then s else
    var l, settling := s.ops[op].lease, s.promises[s.ops[op].promise].settling;
    if settling.Fulfilled? && outcome.fulfilled then s.(ops := s.ops[op := Calling(l)])
    else if settling.Rejected? || outcome.aborted then Fail(s, op, Some(l), outcome.aborted, limits, now)
    else s
  }

  /** A result is handed out, and no failure is remembered. */
  function Accepted(s: Supervisor, op: OpId, l: Lease): Supervisor {
    s.(reg := s.reg.(failures := 0, retryAt := 0), answers := s.answers + [Answer(op, l)])
  }

  function ReturnedStep(s: Supervisor, op: OpId, outcome: Outcome, outputFits: bool, limits: Limits, now: int): Supervisor {
    if !(op in s.ops && s.ops[op].Calling?) then s else
    var l := s.ops[op].lease;
    if !outcome.fulfilled || !IsCurrent(s.reg, l) || !outputFits
    then Fail(s, op, Some(l), outcome.aborted, limits, now)
    else
      EndOperation(Accepted(s, op, l), op, limits)
  }

  function IdleStep(s: Supervisor): Supervisor {
    if s.reg.idleTimer.None? then s else
    var n := s.(reg := s.reg.(idleTimer := None));
    if s.reg.activeOperations != 0 || !IsCurrent(s.reg, s.reg.idleTimer.value) then n
    else StopRegistration(n, s.reg.idleTimer)
  }

  function CleanedStep(s: Supervisor, op: OpId, limits: Limits): Supervisor {
    if op in s.ops && s.ops[op].Cleaning? && s.reg.stopping != Some(s.ops[op].stopOf)
    then EndOperation(s, op, limits) else s
  }

  function StopEndedStep(s: Supervisor): Supervisor { s.(reg := s.reg.(stopping := None)) }

  function Next(s: Supervisor, step: Step, limits: Limits): Supervisor {
    match step
    case Begin(op, now) => BeginStep(s, op, now)
    case Acquire(op, outcome, now) => AcquireStep(s, op, outcome, limits, now)
    case Started(op, outcome, now) => StartedStep(s, op, outcome, limits, now)
    case CatalogRead(promise, matches) => CatalogStep(s, promise, matches)
    case Checked(op, outcome, now) => CheckedStep(s, op, outcome, limits, now)
    case Returned(op, outcome, outputFits, now) => ReturnedStep(s, op, outcome, outputFits, limits, now)
    case StopEnded => StopEndedStep(s)
    case Cleaned(op) => CleanedStep(s, op, limits)
    case IdleFires => IdleStep(s)
    case StopRequested => StopRegistration(s, None)
  }

  const IDLE := Supervisor(Registration(None, 0, None, false, None, 0, None, 0, 0), map[], 0, [], [], {}, [])

  function AfterFrom(s: Supervisor, steps: seq<Step>, limits: Limits): Supervisor
    decreases |steps|
  {
    if steps == [] then s else AfterFrom(Next(s, steps[0], limits), steps[1..], limits)
  }

  function After(steps: seq<Step>, limits: Limits): Supervisor { AfterFrom(IDLE, steps, limits) }

  // ---- what always holds

  /** A lease of the present generation is of the present transport, and no lease is ahead of its time. */
  ghost predicate LeaseFits(r: Registration, l: Lease) {
    l.generation <= r.generation && (l.generation == r.generation ==> r.transport == Some(l.transport))
  }

  ghost predicate LeasesFit(s: Supervisor) {
    && (forall op | op in s.ops && LeaseOf(s.ops[op]).Some? :: LeaseFits(s.reg, LeaseOf(s.ops[op]).value))
    && (s.reg.idleTimer.Some? ==> LeaseFits(s.reg, s.reg.idleTimer.value))
    && (forall l | l in s.matched :: LeaseFits(s.reg, l))
  }

  ghost predicate CountFits(s: Supervisor) { s.reg.activeOperations == |s.ops| }

  /** Each transport ever created is the current one or was told to stop, once. */
  ghost predicate NoneLeaks(s: Supervisor) {
    && (s.reg.transport.Some? ==> s.reg.transport.value < s.created && s.reg.transport.value !in s.stopped)
    && (forall t: TransportId | t < s.created :: s.reg.transport == Some(t) || t in s.stopped)
    && (forall t | t in s.stopped :: t < s.created)
    && (forall i, j | 0 <= i < j < |s.stopped| :: s.stopped[i] != s.stopped[j])
  }

  /** A validated catalog is the current transport's own. */
  ghost predicate CatalogFits(s: Supervisor) {
    s.reg.catalogValidated ==>
      s.reg.transport.Some? && Lease(s.reg.transport.value, s.reg.generation) in s.matched
  }

  /** An operation waits for a catalog that is being read under its own lease. */
  ghost predicate PhaseFits(p: Phase, promises: seq<CatalogPromise>) {
    p.Checking? ==> p.promise < |promises| && promises[p.promise].lease == p.lease
  }

  /** The shared promise was made under the current lease; a fulfilled one has found a match. */
  ghost predicate PromisesFit(s: Supervisor) {
    && (s.reg.catalogPromise.Some? ==>
          s.reg.catalogPromise.value < |s.promises| && IsCurrent(s.reg, s.promises[s.reg.catalogPromise.value].lease))
    && (forall op | op in s.ops :: PhaseFits(s.ops[op], s.promises))
    && (forall q: PromiseId | q < |s.promises| && s.promises[q].settling.Fulfilled? :: s.promises[q].lease in s.matched)
  }

  ghost predicate Inv(s: Supervisor) {
    LeasesFit(s) && CountFits(s) && NoneLeaks(s) && CatalogFits(s) && PromisesFit(s)
  }

  lemma StopKeepsInv(s: Supervisor, expected: Option<Lease>)
    requires Inv(s)
    ensures Inv(StopRegistration(s, expected))
    ensures StopRegistration(s, expected).ops == s.ops
  {}

  lemma EndKeepsInv(s: Supervisor, op: OpId, limits: Limits)
    requires Inv(s) && op in s.ops
    ensures Inv(EndOperation(s, op, limits))
  {}

  /** The counters of the backoff touch nothing else. */
  lemma BackoffKeepsInv(s: Supervisor, failures: nat, retryAt: int)
    requires Inv(s)
    ensures Inv(s.(reg := s.reg.(failures := failures, retryAt := retryAt)))
  {}

  /** An operation moves on under a lease that fits. */
  lemma PhaseKeepsInv(s: Supervisor, op: OpId, p: Phase)
    requires Inv(s) && op in s.ops && PhaseFits(p, s.promises)
    requires LeaseOf(p).Some? ==> LeaseFits(s.reg, LeaseOf(p).value)
    ensures Inv(s.(ops := s.ops[op := p]))
  {
    assert s.ops[op := p].Keys == s.ops.Keys;
    assert |s.ops[op := p]| == |s.ops[op := p].Keys| == |s.ops.Keys| == |s.ops|;
  }

  lemma CleanUpKeepsInv(s: Supervisor, op: OpId, limits: Limits)
    requires Inv(s) && op in s.ops
    ensures Inv(CleanUp(s, op, limits))
  {
    if s.reg.stopping.Some? {
      PhaseKeepsInv(s, op, Cleaning(s.reg.stopping.value));
    } else {
      EndKeepsInv(s, op, limits);
    }
  }

  lemma StopAndCleanUpKeepsInv(s: Supervisor, op: OpId, lease: Option<Lease>, limits: Limits)
    requires Inv(s) && op in s.ops
    ensures Inv(CleanUp(StopRegistration(s, lease), op, limits))
  {
    StopKeepsInv(s, lease);
    CleanUpKeepsInv(StopRegistration(s, lease), op, limits);
  }

  lemma FailKeepsInv(s: Supervisor, op: OpId, lease: Option<Lease>, aborted: bool, limits: Limits, now: int)
    requires Inv(s) && op in s.ops
    ensures Inv(Fail(s, op, lease, aborted, limits, now))
  {
    var failed := Failed(s.reg, limits, now);
    BackoffKeepsInv(s, failed.failures, failed.retryAt);
    var counted := s.(reg := failed);
    EndKeepsInv(s, op, limits);
    EndKeepsInv(counted, op, limits);
    StopAndCleanUpKeepsInv(s, op, lease, limits);
    StopAndCleanUpKeepsInv(counted, op, lease, limits);
  }

  lemma BeginKeepsInv(s: Supervisor, op: OpId, now: int)
    requires Inv(s)
    ensures Inv(BeginStep(s, op, now))
  {}

  lemma CreateKeepsInv(s: Supervisor, op: OpId)
    requires Inv(s) && op in s.ops && s.reg.transport.None?
    ensures
      var lease := Lease(s.created, s.reg.generation + 1);
      Inv(s.(reg := s.reg.(transport := Some(lease.transport), generation := lease.generation),
             created := s.created + 1, ops := s.ops[op := Starting(lease)]))
  {
    var lease := Lease(s.created, s.reg.generation + 1);
    var n := s.(reg := s.reg.(transport := Some(lease.transport), generation := lease.generation), created := s.created + 1);
    assert Inv(n);
    PhaseKeepsInv(n, op, Starting(lease));
  }

  lemma AcquireKeepsInv(s: Supervisor, op: OpId, outcome: Outcome, limits: Limits, now: int)
    requires Inv(s)
    ensures Inv(AcquireStep(s, op, outcome, limits, now))
  {
    if op in s.ops {
      FailKeepsInv(s, op, None, outcome.aborted, limits, now);
      if s.reg.transport.Some? {
        PhaseKeepsInv(s, op, Starting(Lease(s.reg.transport.value, s.reg.generation)));
      } else {
        CreateKeepsInv(s, op);
      }
    }
  }

  /** Whoever joins the shared promise holds the lease it was made under. */
  lemma EnsureKeepsInv(s: Supervisor, op: OpId, l: Lease)
    requires Inv(s) && op in s.ops && IsCurrent(s.reg, l)
    ensures Inv(EnsureCatalog(s, op, l))
  {
    if s.reg.catalogPromise.Some? {
      PhaseKeepsInv(s, op, Checking(l, s.reg.catalogPromise.value));
    } else {
      var q := |s.promises|;
      var n := s.(reg := s.reg.(catalogPromise := Some(q)), promises := s.promises + [CatalogPromise(l, Pending)]);
      assert Inv(n);
      PhaseKeepsInv(n, op, Checking(l, q));
    }
  }

  lemma StartedKeepsInv(s: Supervisor, op: OpId, outcome: Outcome, limits: Limits, now: int)
    requires Inv(s)
    ensures Inv(StartedStep(s, op, outcome, limits, now))
  {
    if op in s.ops && s.ops[op].Starting? {
      var l := s.ops[op].lease;
      FailKeepsInv(s, op, Some(l), outcome.aborted, limits, now);
      if IsCurrent(s.reg, l) { EnsureKeepsInv(s, op, l); }
      PhaseKeepsInv(s, op, Calling(l));
    }
  }

  lemma CheckedKeepsInv(s: Supervisor, op: OpId, outcome: Outcome, limits: Limits, now: int)
    requires Inv(s)
    ensures Inv(CheckedStep(s, op, outcome, limits, now))
  {
    if op in s.ops && s.ops[op].Checking? {
      FailKeepsInv(s, op, Some(s.ops[op].lease), outcome.aborted, limits, now);
      PhaseKeepsInv(s, op, Calling(s.ops[op].lease));
    }
  }

  lemma AcceptedKeepsInv(s: Supervisor, op: OpId, l: Lease)
    requires Inv(s)
    ensures Inv(Accepted(s, op, l))
  {
    BackoffKeepsInv(s, 0, 0);
  }

  lemma ReturnedKeepsInv(s: Supervisor, op: OpId, outcome: Outcome, outputFits: bool, limits: Limits, now: int)
    requires Inv(s)
    ensures Inv(ReturnedStep(s, op, outcome, outputFits, limits, now))
  {
    if op in s.ops && s.ops[op].Calling? {
      var l := s.ops[op].lease;
      FailKeepsInv(s, op, Some(l), outcome.aborted, limits, now);
      AcceptedKeepsInv(s, op, l);
      EndKeepsInv(Accepted(s, op, l), op, limits);
    }
  }

  lemma IdleKeepsInv(s: Supervisor)
    requires Inv(s)
    ensures Inv(IdleStep(s))
  {
    var n := s.(reg := s.reg.(idleTimer := None));
    assert Inv(n);
    StopKeepsInv(n, s.reg.idleTimer);
  }

  lemma StepKeepsInv(s: Supervisor, step: Step, limits: Limits)
    requires Inv(s)
    ensures Inv(Next(s, step, limits))
  {
    match step
    case Begin(op, now) => BeginKeepsInv(s, op, now);
    case Acquire(op, outcome, now) => AcquireKeepsInv(s, op, outcome, limits, now);
    case Started(op, outcome, now) => StartedKeepsInv(s, op, outcome, limits, now);
    case CatalogRead(q, matches) => CatalogKeepsInv(s, q, matches);
    case Checked(op, outcome, now) => CheckedKeepsInv(s, op, outcome, limits, now);
    case Returned(op, outcome, outputFits, now) => ReturnedKeepsInv(s, op, outcome, outputFits, limits, now);
    case StopEnded => StopEndedKeepsInv(s);
    case Cleaned(op) => CleanedKeepsInv(s, op, limits);
    case IdleFires => IdleKeepsInv(s);
    case StopRequested => StopKeepsInv(s, None);
  }

  lemma CatalogKeepsInv(s: Supervisor, q: PromiseId, matches: bool)
    requires Inv(s)
    ensures Inv(CatalogStep(s, q, matches))
  {}

  lemma StopEndedKeepsInv(s: Supervisor)
    requires Inv(s)
    ensures Inv(StopEndedStep(s))
  {}

  lemma CleanedKeepsInv(s: Supervisor, op: OpId, limits: Limits)
    requires Inv(s)
    ensures Inv(CleanedStep(s, op, limits))
  {
    if op in s.ops { EndKeepsInv(s, op, limits); }
  }

  lemma {:induction false} StepsKeepInv(s: Supervisor, steps: seq<Step>, limits: Limits)
    requires Inv(s)
    ensures Inv(AfterFrom(s, steps, limits))
    decreases |steps|
  {
    if steps != [] {
      StepKeepsInv(s, steps[0], limits);
      StepsKeepInv(Next(s, steps[0], limits), steps[1..], limits);
    }
  }

  // ---- fencing

  /** Steps of one operation that holds the lease. */
  predicate IsStepOf(step: Step, op: OpId) {
    (step.Started? || step.Checked? || step.Returned?) && step.op == op
  }

  /** What a late result or a late failure must leave alone. */
  ghost predicate Untouched(a: Supervisor, b: Supervisor) {
    && b.answers == a.answers && b.stopped == a.stopped && b.created == a.created && b.matched == a.matched
    && b.reg.transport == a.reg.transport && b.reg.generation == a.reg.generation
    && b.reg.stopping == a.reg.stopping && b.reg.catalogValidated == a.reg.catalogValidated
    && b.reg.catalogPromise == a.reg.catalogPromise && b.promises == a.promises
    && b.reg.failures == a.reg.failures && b.reg.retryAt == a.reg.retryAt
  }

  /** A result or failure that comes under a lease no longer current is not handed out, not counted, and stops nothing. */
  lemma StaleIsHarmless(s: Supervisor, step: Step, op: OpId, limits: Limits)
    requires op in s.ops && LeaseOf(s.ops[op]).Some? && !IsCurrent(s.reg, LeaseOf(s.ops[op]).value)
    requires IsStepOf(step, op)
    ensures Untouched(s, Next(s, step, limits))
  {}

  /** What a failing operation can do at most. */
  lemma FailMoves(s: Supervisor, op: OpId, lease: Option<Lease>, aborted: bool, limits: Limits, now: int)
    ensures
      var n := Fail(s, op, lease, aborted, limits, now);
      && s.reg.generation <= n.reg.generation
      && (n.reg.generation == s.reg.generation ==> n.reg.transport == s.reg.transport)
      && n.matched == s.matched
      && (forall other | other in n.ops && n.ops[other].Calling? :: other in s.ops && n.ops[other] == s.ops[other])
      && (n.stopped != s.stopped ==>
            && s.reg.transport.Some? && n.stopped == s.stopped + [s.reg.transport.value]
            && lease.Some? && IsCurrent(s.reg, lease.value)
            && (aborted ==> s.reg.activeOperations == 1))
  {}

  lemma StepFailMoves(s: Supervisor, step: Step, limits: Limits)
    requires (step.Acquire? || step.Started? || step.Checked? || step.Returned?) && step.op in s.ops
    ensures
      var n := Fail(s, step.op, LeaseOf(s.ops[step.op]), step.outcome.aborted, limits, step.now);
      && s.reg.generation <= n.reg.generation
      && (n.reg.generation == s.reg.generation ==> n.reg.transport == s.reg.transport)
  {
    FailMoves(s, step.op, LeaseOf(s.ops[step.op]), step.outcome.aborted, limits, step.now);
  }

  /** The generation never falls, and the transport never changes within one generation. */
  lemma StepMoves(s: Supervisor, step: Step, limits: Limits)
    ensures s.reg.generation <= Next(s, step, limits).reg.generation
    ensures Next(s, step, limits).reg.generation == s.reg.generation ==>
      Next(s, step, limits).reg.transport == s.reg.transport
  {
    match step
    case Acquire(op, outcome, now) => if op in s.ops { FailMoves(s, op, None, outcome.aborted, limits, now); }
    case Started(op, _, _) => if op in s.ops { StepFailMoves(s, step, limits); }
    case Checked(op, _, _) => if op in s.ops { StepFailMoves(s, step, limits); }
    case Returned(op, _, _, _) => if op in s.ops { StepFailMoves(s, step, limits); }
    case _ =>
  }

  lemma {:induction false} StepsMove(s: Supervisor, steps: seq<Step>, limits: Limits)
    ensures s.reg.generation <= AfterFrom(s, steps, limits).reg.generation
    ensures AfterFrom(s, steps, limits).reg.generation == s.reg.generation ==>
      AfterFrom(s, steps, limits).reg.transport == s.reg.transport
    decreases |steps|
  {
    if steps != [] {
      StepMoves(s, steps[0], limits);
      StepsMove(Next(s, steps[0], limits), steps[1..], limits);
    }
  }

  /** A lease that was current and no longer is will never be current again. */
  lemma NeverCurrentAgain(s: Supervisor, l: Lease, sooner: seq<Step>, later: seq<Step>, limits: Limits)
    requires IsCurrent(s.reg, l) && !IsCurrent(AfterFrom(s, sooner, limits).reg, l)
    ensures !IsCurrent(AfterFrom(AfterFrom(s, sooner, limits), later, limits).reg, l)
  {
    StepsMove(s, sooner, limits);
    StepsMove(AfterFrom(s, sooner, limits), later, limits);
  }

  /** A result is handed out only under the current lease, and then no failure is remembered. */
  lemma ResultsAreCurrent(s: Supervisor, step: Step, limits: Limits)
    requires Next(s, step, limits).answers != s.answers
    ensures
      && step.Returned? && step.op in s.ops && s.ops[step.op].Calling?
      && IsCurrent(s.reg, s.ops[step.op].lease)
      && Next(s, step, limits).answers == s.answers + [Answer(step.op, s.ops[step.op].lease)]
      && Next(s, step, limits).reg.failures == 0
  {}

  lemma OnlyOperation(ops: map<OpId, Phase>, op: OpId)
    requires |ops| == 1 && op in ops
    ensures ops.Keys == {op}
  {
    assert |ops.Keys| == |ops|;
    assert |ops.Keys - {op}| == 0;
    assert ops.Keys == (ops.Keys - {op}) + {op};
  }

  /** Why a step may tell a transport to stop: it is always the current one, for one of four reasons. */
  lemma StopsAreJustified(s: Supervisor, step: Step, limits: Limits)
    requires Inv(s) && Next(s, step, limits).stopped != s.stopped
    ensures s.reg.transport.Some? && Next(s, step, limits).stopped == s.stopped + [s.reg.transport.value]
    ensures
      || step.StopRequested?
      || (step.IdleFires? && s.ops == map[])
      || (&& (step.Started? || step.Checked? || step.Returned?) && step.op in s.ops && LeaseOf(s.ops[step.op]).Some?
          && IsCurrent(s.reg, LeaseOf(s.ops[step.op]).value)
          && (step.outcome.aborted ==> s.ops.Keys == {step.op}))
  {
    if step.IdleFires? {
      assert |s.ops.Keys| == |s.ops| == 0;
    } else if !step.StopRequested? && !step.CatalogRead? && !step.StopEnded? && step.op in s.ops {
      if step.Begin? || step.Cleaned? { return; }
      FailMoves(s, step.op, LeaseOf(s.ops[step.op]), step.outcome.aborted, limits, step.now);
      if step.outcome.aborted && s.reg.activeOperations == 1 { OnlyOperation(s.ops, step.op); }
    }
  }

  // ---- over whole histories

  /** Where a catalog is expected, every call under way is on a transport whose own catalog matched. */
  ghost predicate CallsAreChecked(s: Supervisor, limits: Limits) {
    limits.expectsCatalog ==> forall op | op in s.ops && s.ops[op].Calling? :: s.ops[op].lease in s.matched
  }

  lemma StepKeepsChecked(s: Supervisor, step: Step, limits: Limits)
    requires Inv(s) && CallsAreChecked(s, limits)
    ensures CallsAreChecked(Next(s, step, limits), limits)
  {
    if (step.Acquire? || step.Started? || step.Checked? || step.Returned?) && step.op in s.ops {
      FailMoves(s, step.op, LeaseOf(s.ops[step.op]), step.outcome.aborted, limits, step.now);
    }
  }

  lemma {:induction false} StepsKeepChecked(s: Supervisor, steps: seq<Step>, limits: Limits)
    requires Inv(s) && CallsAreChecked(s, limits)
    ensures CallsAreChecked(AfterFrom(s, steps, limits), limits)
    decreases |steps|
  {
    if steps != [] {
      StepKeepsInv(s, steps[0], limits);
      StepKeepsChecked(s, steps[0], limits);
      StepsKeepChecked(Next(s, steps[0], limits), steps[1..], limits);
    }
  }

  /**
   In every history: a validated catalog is the current transport's own, every call under way was
   preceded by a matching catalog where one is expected, whoever waits for a catalog waits for that of
   its own lease although the promise is shared, the operations are counted right, and every transport
   ever created is the current one or was told to stop exactly once.
   */
  lemma SupervisorIsSound(steps: seq<Step>, limits: Limits)
    ensures
      var s := After(steps, limits);
      && (s.reg.catalogValidated ==>
            s.reg.transport.Some? && Lease(s.reg.transport.value, s.reg.generation) in s.matched)
      && (limits.expectsCatalog ==> forall op | op in s.ops && s.ops[op].Calling? :: s.ops[op].lease in s.matched)
      && (forall op | op in s.ops :: PhaseFits(s.ops[op], s.promises))
      && s.reg.activeOperations == |s.ops|
      && (forall t: TransportId | t < s.created :: s.reg.transport == Some(t) <==> t !in s.stopped)
      && (forall i, j | 0 <= i < j < |s.stopped| :: s.stopped[i] != s.stopped[j])
  {
    StepsKeepInv(IDLE, steps, limits);
    StepsKeepChecked(IDLE, steps, limits);
  }

  // ---- backoff

  /** The waiting time after a failure doubles from a quarter second and never passes its maximum. */
  lemma BackoffGrows(r: Registration, limits: Limits, now: int)
    ensures
      var once := Failed(r, limits, now);
      var twice := Failed(once, limits, now);
      && now <= once.retryAt <= twice.retryAt <= now + limits.maxBackoffMs
      && (twice.retryAt < now + limits.maxBackoffMs ==> twice.retryAt - now == 2 * (once.retryAt - now))
  {}

  // ---- the registration's own methods

  class McpRegistration {
    const limits: Limits
    var transport: Option<TransportId>
    var generation: nat
    var stopPromise: Option<TransportId>
    var catalogValidated: bool
    var catalogPromise: Option<PromiseId>
    var activeOperations: int
    var idleTimer: Option<Lease>
    var failures: nat
    var retryAt: int
    var operations: map<OpId, Phase>
    var created: nat
    var promises: seq<CatalogPromise>
    ghost var stopped: seq<TransportId>
    ghost var matched: set<Lease>
    ghost var answers: seq<Answer>

    ghost function State(): Supervisor
      reads this
    {
      Supervisor(
        Registration(transport, generation, stopPromise, catalogValidated, catalogPromise, activeOperations, idleTimer,
                     failures, retryAt),
        operations, created, promises, stopped, matched, answers)
    }

    ghost predicate Valid()
      reads this
    {
      Inv(State())
    }

    constructor (limits: Limits)
      ensures Valid() && State() == IDLE && this.limits == limits
    {
      this.limits := limits;
      transport, generation, stopPromise, catalogValidated, catalogPromise, promises := None, 0, None, false, None, [];
      activeOperations, idleTimer, failures, retryAt, operations, created := 0, None, 0, 0, map[], 0;
      stopped, matched, answers := [], {}, [];
    }

    method BeginOperation(op: OpId, now: int) returns (begun: bool)
      requires Valid() && op !in operations
      modifies this`idleTimer, this`activeOperations, this`operations
      ensures Valid() && State() == BeginStep(old(State()), op, now)
      ensures begun <==> old(retryAt) <= now
    {
      BeginKeepsInv(State(), op, now);
      if retryAt > now { return false; }
      idleTimer := None;
      activeOperations := activeOperations + 1;
      operations := operations[op := Acquiring(stopPromise)];
      begun := true;
    }

    /** `#acquireTransport`, once nothing is left to wait for. */
    method AcquireTransport(op: OpId) returns (lease: Lease)
      requires Valid() && op in operations && operations[op].Acquiring?
      requires operations[op].waitsFor.None? || operations[op].waitsFor != stopPromise
      modifies this`transport, this`generation, this`created, this`operations
      ensures Valid() && State() == AcquireStep(old(State()), op, Outcome(true, false), limits, 0)
      ensures IsCurrent(State().reg, lease) && operations[op] == Starting(lease)
    {
      AcquireKeepsInv(State(), op, Outcome(true, false), limits, 0);
      ghost var next := AcquireStep(State(), op, Outcome(true, false), limits, 0);
      if transport.None? {
        transport, generation, created := Some(created), generation + 1, created + 1;
      }
      lease := Lease(transport.value, generation);
      operations := operations[op := Starting(lease)];
      assert State() == next;
    }

    /** `#ensureExpectedCatalog`, up to its await; without a promise to join, one is made under this lease. */
    method EnsureExpectedCatalog(op: OpId, lease: Lease) returns (promise: PromiseId)
      requires Valid() && op in operations && IsCurrent(State().reg, lease)
      modifies this`catalogPromise, this`promises, this`operations
      ensures Valid() && State() == EnsureCatalog(old(State()), op, lease)
      ensures operations[op] == Checking(lease, promise) && promise < |promises| && promises[promise].lease == lease
    {
      EnsureKeepsInv(State(), op, lease);
      if catalogPromise.None? {
        catalogPromise, promises := Some(|promises|), promises + [CatalogPromise(lease, Pending)];
      }
      promise := catalogPromise.value;
      operations := operations[op := Checking(lease, promise)];
    }

    /** `#readAndValidateCatalog`, from its await on. */
    method SettleCatalog(promise: PromiseId, matches: bool)
      requires Valid() && promise < |promises| && promises[promise].settling.Pending?
      modifies this`catalogValidated, this`promises, this`matched
      ensures Valid() && State() == CatalogStep(old(State()), promise, matches)
    {
      CatalogKeepsInv(State(), promise, matches);
      var l := promises[promise].lease;
      if matches && transport == Some(l.transport) && generation == l.generation {
        catalogValidated, matched := true, matched + {l};
        promises := promises[promise := CatalogPromise(l, Fulfilled)];
      } else {
        promises := promises[promise := CatalogPromise(l, Rejected)];
      }
    }

    /** The transport is told to stop; nothing of it is left behind. */
    method DropTransport()
      requires transport.Some? && stopPromise.None?
      modifies this
      ensures State() == StopRegistration(old(State()), None)
    {
      ghost var next := StopRegistration(State(), None);
      assert next == State().(reg := Dropped(State().reg), stopped := stopped + [transport.value]);
      stopped := stopped + [transport.value];
      stopPromise, transport, generation := transport, None, generation + 1;
      catalogValidated, catalogPromise, idleTimer := false, None, None;
    }

    method StopTransport(expected: Option<Lease>)
      requires Valid()
      modifies this
      ensures Valid() && State() == StopRegistration(old(State()), expected)
    {
      StopKeepsInv(State(), expected);
      if expected.Some? && (transport != Some(expected.value.transport) || generation != expected.value.generation) {
        return;
      }
      if stopPromise.Some? { return; }
      if transport.None? { idleTimer := None; return; }
      DropTransport();
    }

    method FinishOperation(op: OpId)
      requires Valid() && op in operations
      modifies this
      ensures Valid() && State() == EndOperation(old(State()), op, limits)
    {
      EndKeepsInv(State(), op, limits);
      ghost var next := EndOperation(State(), op, limits);
      activeOperations := if activeOperations > 0 then activeOperations - 1 else 0;
      operations := operations - {op};
      if activeOperations == 0 && transport.Some? && stopPromise.None? && limits.idleEnabled {
        idleTimer := Some(Lease(transport.value, generation));
      }
      assert State() == next;
    }

    method RecordFailure(now: int)
      requires Valid()
      modifies this`failures, this`retryAt
      ensures Valid()
      ensures State() == old(State()).(reg := Failed(old(State()).reg, limits, now))
    {
      BackoffKeepsInv(State(), failures + 1, Failed(State().reg, limits, now).retryAt);
      ghost var next := State().(reg := Failed(State().reg, limits, now));
      var backoff := Pow2(failures) * 250;
      retryAt := now + if backoff < limits.maxBackoffMs then backoff else limits.maxBackoffMs;
      failures := failures + 1;
      assert State() == next;
    }

    method Accept(op: OpId, l: Lease)
      requires Valid()
      modifies this`failures, this`retryAt, this`answers
      ensures Valid() && State() == Accepted(old(State()), op, l)
    {
      AcceptedKeepsInv(State(), op, l);
      ghost var next := Accepted(State(), op, l);
      failures, retryAt := 0, 0;
      answers := answers + [Answer(op, l)];
      assert State() == next;
    }

    /** A transport's result: handed out if the lease is still current, and then the failures are forgotten. */
    method TakeResult(op: OpId) returns (accepted: bool)
      requires Valid() && op in operations && operations[op].Calling?
      modifies this
      ensures Valid() && accepted == IsCurrent(old(State()).reg, old(operations[op]).lease)
      ensures accepted ==> State() == ReturnedStep(old(State()), op, Outcome(true, false), true, limits, 0)
      ensures !accepted ==> Untouched(old(State()), State())
    {
      var l := operations[op].lease;
      accepted := transport == Some(l.transport) && generation == l.generation;
      if accepted { Accept(op, l); }
      FinishOperation(op);
    }
  }
}
