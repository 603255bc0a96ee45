/**
 What each event means for a registered MCP server and the operations on it: who gets which transport, what
 counts as a failure, and exactly when a transport is told to stop.
 */
module McpOutcomes {
  import opened Wrappers
  import opened McpSupervisor

  /** The lease is of the transport there is now, in its own generation. */
  predicate Holds(s: Supervisor, l: Lease) { s.reg.transport == Some(l.transport) && s.reg.generation == l.generation }

  /** The transport that is there is told to stop: it is given up at once, with its catalog, under a new generation. */
  predicate ToldToStop(s: Supervisor, n: Supervisor) {
    && s.reg.transport.Some? && n.stopped == s.stopped + [s.reg.transport.value]
    && n.reg.transport.None? && n.reg.stopping == s.reg.transport && n.reg.generation == s.reg.generation + 1
    && !n.reg.catalogValidated && n.reg.catalogPromise.None?
  }

  /** The transport, its generation, its catalog and a pending stop are as they were. */
  predicate SameTransport(s: Supervisor, n: Supervisor) {
    && n.stopped == s.stopped && n.reg.transport == s.reg.transport && n.reg.stopping == s.reg.stopping
    && n.reg.generation == s.reg.generation && n.reg.catalogValidated == s.reg.catalogValidated
    && n.reg.catalogPromise == s.reg.catalogPromise
  }

  predicate SameFailures(s: Supervisor, n: Supervisor) {
    n.reg.failures == s.reg.failures && n.reg.retryAt == s.reg.retryAt
  }

  predicate SameHistory(s: Supervisor, n: Supervisor) {
    n.created == s.created && n.promises == s.promises && n.matched == s.matched && n.answers == s.answers
  }

  /** The operation is over; the last one arms the idle timer for a transport that stays. */
  predicate Over(s: Supervisor, n: Supervisor, op: OpId, limits: Limits) {
    && n.ops == s.ops - {op}
    && n.reg.idleTimer ==
         if n.ops == map[] && n.reg.transport.Some? && n.reg.stopping.None? && limits.idleEnabled
         then Some(Lease(n.reg.transport.value, n.reg.generation))
         else if n.stopped != s.stopped then None else s.reg.idleTimer
  }

  // ---- stops

  /** A stop on request tells the transport that is there, unless one is stopping already. */
  lemma StopOnRequest(s: Supervisor, limits: Limits)
    ensures
      var n := Next(s, StopRequested, limits);
      && n.ops == s.ops && SameHistory(s, n) && SameFailures(s, n)
      && if s.reg.stopping.None? && s.reg.transport.Some? then ToldToStop(s, n) && n.reg.idleTimer.None?
         else SameTransport(s, n) && n.reg.idleTimer == if s.reg.stopping.Some? then s.reg.idleTimer else None
  {}

  /** The idle timer tells its transport exactly when that is still the one, no operation is there, and none is stopping. */
  lemma StopWhenIdle(s: Supervisor, limits: Limits)
    requires Inv(s)
    ensures
      var n := Next(s, IdleFires, limits);
      && n.ops == s.ops && SameHistory(s, n) && SameFailures(s, n) && n.reg.idleTimer.None?
      && if s.reg.idleTimer.Some? && s.ops == map[] && Holds(s, s.reg.idleTimer.value) && s.reg.stopping.None?
         then ToldToStop(s, n) else SameTransport(s, n)
  {
    assert |s.ops| == 0 <==> s.ops == map[];
  }

  lemma StopIsOver(s: Supervisor, limits: Limits)
    ensures Next(s, StopEnded, limits) == s.(reg := s.reg.(stopping := None))
  {}

  // ---- how an operation gets its transport

  /** An operation begins unless failures make it wait; then no idle timer is left. */
  lemma BeginsIff(s: Supervisor, op: OpId, now: int, limits: Limits)
    requires op !in s.ops
    ensures
      var n := Next(s, Begin(op, now), limits);
      && SameTransport(s, n) && SameHistory(s, n) && SameFailures(s, n)
      && if s.reg.retryAt <= now then n.ops == s.ops[op := Acquiring(s.reg.stopping)] && n.reg.idleTimer.None?
         else n == s
  {}

  /**
   An operation gets the transport that is there, or a new one under the next generation; a stop that it waits
   for comes first. Either way its lease is good.
   */
  lemma AcquiresTransport(s: Supervisor, op: OpId, outcome: Outcome, now: int, limits: Limits)
    requires op in s.ops && s.ops[op].Acquiring? && outcome.fulfilled
    ensures
      var n := Next(s, Acquire(op, outcome, now), limits);
      if s.ops[op].waitsFor.Some? && s.ops[op].waitsFor == s.reg.stopping then n == s
      else
        && op in n.ops && n.ops == s.ops[op := n.ops[op]] && n.ops[op].Starting? && Holds(n, n.ops[op].lease)
        && n.promises == s.promises && n.answers == s.answers && n.stopped == s.stopped && SameFailures(s, n)
        && n.reg.stopping == s.reg.stopping
        && if s.reg.transport.Some? then n.reg == s.reg && n.created == s.created
           else n.reg.transport == Some(s.created) && n.created == s.created + 1 && n.reg.generation == s.reg.generation + 1
  {}

  /** Once started, an operation calls at once, or has the catalog looked at first where one is expected and none is known. */
  lemma StartsCalling(s: Supervisor, op: OpId, outcome: Outcome, now: int, limits: Limits)
    requires op in s.ops && s.ops[op].Starting? && outcome.fulfilled && Holds(s, s.ops[op].lease)
    ensures
      var n, l := Next(s, Started(op, outcome, now), limits), s.ops[op].lease;
      && SameFailures(s, n) && n.answers == s.answers && n.matched == s.matched && n.stopped == s.stopped
      && op in n.ops && n.ops == s.ops[op := n.ops[op]]
      && if !limits.expectsCatalog || s.reg.catalogValidated then n.ops[op] == Calling(l) && n.promises == s.promises
         else
           && n.ops[op].Checking? && n.ops[op].lease == l && n.reg.catalogPromise == Some(n.ops[op].promise)
           && if s.reg.catalogPromise.Some? then n.reg == s.reg && n.promises == s.promises
              else n.promises == s.promises + [CatalogPromise(l, Pending)] && n.ops[op].promise == |s.promises|
  {}

  /** A catalog counts exactly when it matches and is of the transport that is still there. */
  lemma CatalogCountsIff(s: Supervisor, q: PromiseId, matches: bool, limits: Limits)
    requires q < |s.promises| && s.promises[q].settling.Pending?
    ensures
      var n, l := Next(s, CatalogRead(q, matches), limits), s.promises[q].lease;
      var counts := matches && Holds(s, l);
      && n.ops == s.ops && SameFailures(s, n) && n.stopped == s.stopped && n.answers == s.answers
      && n.reg == (if counts then s.reg.(catalogValidated := true) else s.reg)
      && n.matched == (if counts then s.matched + {l} else s.matched)
      && n.promises == s.promises[q := CatalogPromise(l, if counts then Fulfilled else Rejected)]
  {}

  /** A catalog is looked at once. */
  lemma CatalogSettlesOnce(s: Supervisor, q: PromiseId, matches: bool, limits: Limits)
    requires q < |s.promises| && !s.promises[q].settling.Pending?
    ensures Next(s, CatalogRead(q, matches), limits) == s
  {}

  /** An operation that waits for a catalog goes on to its call when that counts, and waits while it is being read. */
  lemma CheckedGoesOn(s: Supervisor, op: OpId, outcome: Outcome, now: int, limits: Limits)
    requires Inv(s) && op in s.ops && s.ops[op].Checking? && !outcome.aborted
    ensures
      var n, settling := Next(s, Checked(op, outcome, now), limits), s.promises[s.ops[op].promise].settling;
      && (settling.Fulfilled? && outcome.fulfilled ==> n == s.(ops := s.ops[op := Calling(s.ops[op].lease)]))
      && (settling.Pending? ==> n == s)
  {
    assert PhaseFits(s.ops[op], s.promises);
  }

  /** A result is handed out, and failures are forgotten, exactly when it comes under the lease that still holds and fits. */
  lemma HandsOutIff(s: Supervisor, op: OpId, outcome: Outcome, outputFits: bool, now: int, limits: Limits)
    requires Inv(s) && op in s.ops && s.ops[op].Calling?
    ensures
      var n, l := Next(s, Returned(op, outcome, outputFits, now), limits), s.ops[op].lease;
      if outcome.fulfilled && Holds(s, l) && outputFits then
        && n.answers == s.answers + [Answer(op, l)] && n.reg.failures == 0 && n.reg.retryAt == 0
        && SameTransport(s, n) && Over(s, n, op, limits)
      else n.answers == s.answers && Fails(s, n, op, Some(l), outcome.aborted, now, limits)
  {
    if outcome.fulfilled && Holds(s, s.ops[op].lease) && outputFits {
      EndMeans(Accepted(s, op, s.ops[op].lease), op, limits);
    } else {
      FailMeans(s, op, Some(s.ops[op].lease), outcome.aborted, now, limits);
    }
  }

  // ---- how an operation fails

  /**
   A failure is counted when it is the server's: not when the caller gave up, and only under a lease that holds
   or, where no lease was got, while no transport is there. Such a failure, or the caller's giving up the only
   operation, tells the transport to stop; the operation then waits for the stop that is pending, or is over.
   */
  predicate Fails(
    s: Supervisor, n: Supervisor, op: OpId, lease: Option<Lease>, aborted: bool, now: int, limits: Limits)
  {
    var mine := lease.Some? && Holds(s, lease.value);
    var counts := !aborted && (mine || (lease.None? && s.reg.transport.None? && s.reg.stopping.None?));
    var stops := mine && (aborted ==> s.ops.Keys == {op});
    && SameHistory(s, n)
    && (counts ==> n.reg.failures == s.reg.failures + 1 && now <= n.reg.retryAt <= now + limits.maxBackoffMs)
    && (!counts ==> SameFailures(s, n))
    && (if stops && s.reg.stopping.None? then ToldToStop(s, n) else SameTransport(s, n))
    && if stops then n.ops == s.ops[op := Cleaning(n.reg.stopping.value)] && n.reg.stopping.Some? else Over(s, n, op, limits)
  }

  lemma OnlyOne(s: Supervisor, op: OpId)
    requires CountFits(s) && op in s.ops
    ensures s.reg.activeOperations == 1 <==> s.ops.Keys == {op}
  {
    if |s.ops| == 1 { OnlyOperation(s.ops, op); }
    if s.ops.Keys == {op} { assert |s.ops| == |s.ops.Keys| == 1; }
  }

  lemma EndMeans(s: Supervisor, op: OpId, limits: Limits)
    requires CountFits(s) && op in s.ops
    ensures
      var n := EndOperation(s, op, limits);
      SameTransport(s, n) && SameFailures(s, n) && SameHistory(s, n) && Over(s, n, op, limits)
  {
    assert |s.ops - {op}| == |s.ops| - 1 by {
      assert (s.ops - {op}).Keys == s.ops.Keys - {op};
      assert |s.ops - {op}| == |(s.ops - {op}).Keys| && |s.ops| == |s.ops.Keys|;
    }
    assert |s.ops - {op}| == 0 <==> s.ops - {op} == map[];
  }

  /** A stop under the operation's own lease, and the wait for whichever stop is pending then. */
  lemma StopMeans(s: Supervisor, op: OpId, l: Lease, limits: Limits)
    requires op in s.ops && Holds(s, l)
    ensures
      var n := CleanUp(StopRegistration(s, Some(l)), op, limits);
      && SameHistory(s, n) && SameFailures(s, n)
      && (if s.reg.stopping.None? then ToldToStop(s, n) else SameTransport(s, n))
      && n.reg.stopping.Some? && n.ops == s.ops[op := Cleaning(n.reg.stopping.value)]
  {}

  lemma CountedFailure(s: Supervisor, limits: Limits, now: int)
    ensures
      var n := s.(reg := Failed(s.reg, limits, now));
      && n.reg.failures == s.reg.failures + 1 && now <= n.reg.retryAt <= now + limits.maxBackoffMs
      && SameTransport(s, n) && SameHistory(s, n) && n.ops == s.ops && n.reg.idleTimer == s.reg.idleTimer
      && n.reg.activeOperations == s.reg.activeOperations
  {}

  lemma FailMeans(s: Supervisor, op: OpId, lease: Option<Lease>, aborted: bool, now: int, limits: Limits)
    requires CountFits(s) && op in s.ops
    ensures Fails(s, Fail(s, op, lease, aborted, limits, now), op, lease, aborted, now, limits)
  {
    hide StopRegistration, CleanUp, EndOperation, Failed;
    OnlyOne(s, op);
    CountedFailure(s, limits, now);
    var counted := s.(reg := Failed(s.reg, limits, now));
    if lease.Some? && Holds(s, lease.value) {
      StopMeans(s, op, lease.value, limits);
      StopMeans(counted, op, lease.value, limits);
    }
    EndMeans(s, op, limits);
    EndMeans(counted, op, limits);
  }

  /** The three other ways to fail: no transport is got, it does not start, or the catalog does not count. */
  lemma FailsOtherwise(s: Supervisor, step: Step, op: OpId, limits: Limits)
    requires Inv(s) && op in s.ops
    requires
      || (step.Acquire? && step.op == op && s.ops[op].Acquiring? && !step.outcome.fulfilled)
      || (step.Started? && step.op == op && s.ops[op].Starting? && !(step.outcome.fulfilled && Holds(s, s.ops[op].lease)))
      || (step.Checked? && step.op == op && s.ops[op].Checking?
          && (s.promises[s.ops[op].promise].settling.Rejected?
              || (step.outcome.aborted && !(s.promises[s.ops[op].promise].settling.Fulfilled? && step.outcome.fulfilled))))
    ensures Fails(s, Next(s, step, limits), op, LeaseOf(s.ops[op]), step.outcome.aborted, step.now, limits)
  {
    FailMeans(s, op, LeaseOf(s.ops[op]), step.outcome.aborted, step.now, limits);
  }

  /** The first failure costs a quarter second, or the most there is to wait if that is less. */
  lemma FirstFailureWaits(s: Supervisor, op: OpId, now: int, limits: Limits)
    requires Inv(s) && op in s.ops && s.ops[op].Acquiring? && s.reg.failures == 0
    requires s.reg.transport.None? && s.reg.stopping.None?
    ensures
      var n := Next(s, Acquire(op, Outcome(false, false), now), limits);
      n.reg.retryAt == now + if 250 < limits.maxBackoffMs then 250 else limits.maxBackoffMs
  {
    EndMeans(s.(reg := Failed(s.reg, limits, now)), op, limits);
  }

  /** An operation that waits for a stop is over when that stop is. */
  lemma CleanedIsOver(s: Supervisor, op: OpId, limits: Limits)
    requires Inv(s) && op in s.ops && s.ops[op].Cleaning?
    ensures
      var n := Next(s, Cleaned(op), limits);
      if s.reg.stopping == Some(s.ops[op].stopOf) then n == s
      else SameTransport(s, n) && SameFailures(s, n) && SameHistory(s, n) && Over(s, n, op, limits)
  {
    EndMeans(s, op, limits);
  }
}
