/**
 Interval triggers: when a trigger fires next, and a store in which several scheduler engines
 claim, complete and fail due triggers under leases. Each step is one transaction.
 */
module Triggers {
  import opened Wrappers

  type Id = string
  type OwnerName = string

  datatype Trigger = Trigger(intervalMs: int, nextFireAt: int, oneShot: bool, jitterMs: int, catchUp: bool)

  const NEVER := 9_007_199_254_740_991
  const DAY_MS := 86_400_000

  function Max(a: int, b: int): int { if a < b then b else a }

  /** `validateTrigger`, for triggers that are not bound to a local time of day. */
  predicate IsValid(t: Trigger) {
    && (if t.oneShot then t.intervalMs >= 0 else t.intervalMs >= 1_000)
    && 0 <= t.nextFireAt <= NEVER
    && 0 <= t.jitterMs <= Max(t.intervalMs, DAY_MS)
  }

  /** The next slot before any jitter: how many intervals were missed is a floor division. */
  function Base(t: Trigger, firedAt: int): int
    requires t.intervalMs > 0
  {
    t.nextFireAt + Max(1, (firedAt - t.nextFireAt) / t.intervalMs + 1) * t.intervalMs
  }

  /** `nextOccurrence`; `hash` is the number read from the digest of the identifier and the base. */
  function NextOccurrence(t: Trigger, firedAt: int, hash: nat): int
    requires t.intervalMs > 0 && t.jitterMs >= 0
  {
    if t.catchUp then t.nextFireAt + t.intervalMs
    else Base(t, firedAt) + if t.jitterMs == 0 then 0 else hash % (t.jitterMs + 1)
  }

  /** A grid instant of the trigger: its present slot moved by whole intervals. */
  ghost predicate OnGrid(t: Trigger, instant: int) {
    exists n: int :: instant == GridAt(t, n)
  }

  function GridAt(t: Trigger, n: int): int { t.nextFireAt + n * t.intervalMs }

  lemma {:induction false} Apart(m: int, n: int, interval: int)
    requires interval > 0 && m <= n
    ensures m * interval <= n * interval && (m < n ==> m * interval + interval <= n * interval)
    decreases n - m
  {
    if m < n {
      Apart(m, n - 1, interval);
      assert n * interval == (n - 1) * interval + interval;
    }
  }

  lemma GridRises(t: Trigger, m: int, n: int)
    requires t.intervalMs > 0 && m <= n
    ensures GridAt(t, m) <= GridAt(t, n) && (m < n ==> GridAt(t, m) + t.intervalMs <= GridAt(t, n))
  {
    Apart(m, n, t.intervalMs);
  }

  lemma GridSteps(t: Trigger, m: int, n: int)
    requires t.intervalMs > 0 && GridAt(t, m) < GridAt(t, n)
    ensures m < n && GridAt(t, m) + t.intervalMs <= GridAt(t, n)
  {
    if n <= m { GridRises(t, n, m); } else { GridRises(t, m, n); }
  }

  /** A due trigger that skips moves to the least grid instant after the firing, and at most its jitter beyond. */
  lemma SkipMovesToLeastSlot(t: Trigger, firedAt: int, hash: nat, n: int)
    requires t.intervalMs > 0 && t.jitterMs >= 0 && !t.catchUp && t.nextFireAt <= firedAt
    ensures OnGrid(t, Base(t, firedAt)) && firedAt < Base(t, firedAt)
    ensures GridAt(t, n) > firedAt ==> Base(t, firedAt) <= GridAt(t, n)
    ensures Base(t, firedAt) <= NextOccurrence(t, firedAt, hash) <= Base(t, firedAt) + t.jitterMs
  {
    var q := (firedAt - t.nextFireAt) / t.intervalMs;
    assert firedAt - t.nextFireAt == q * t.intervalMs + (firedAt - t.nextFireAt) % t.intervalMs;
    assert q >= 0;
    assert Base(t, firedAt) == GridAt(t, q + 1);
    assert GridAt(t, q + 1) == GridAt(t, q) + t.intervalMs;
    if GridAt(t, n) > firedAt { GridSteps(t, q, n); }
  }

  /** A number between zero and the interval that is left over is the remainder. */
  lemma IsRemainder(x: int, n: int, rest: int, interval: int)
    requires interval > 0 && 0 <= rest < interval && x == n * interval + rest
    ensures x % interval == rest
  {
    var q := x / interval;
    assert x == q * interval + x % interval;
    if q < n { Apart(q, n, interval); } else { Apart(n, q, interval); }
  }

  lemma OnGridIff(t: Trigger, instant: int)
    requires t.intervalMs > 0
    ensures OnGrid(t, instant) <==> (instant - t.nextFireAt) % t.intervalMs == 0
  {
    if OnGrid(t, instant) {
      var n :| instant == GridAt(t, n);
      IsRemainder(instant - t.nextFireAt, n, 0, t.intervalMs);
    }
    if (instant - t.nextFireAt) % t.intervalMs == 0 {
      assert instant == GridAt(t, (instant - t.nextFireAt) / t.intervalMs);
    }
  }

  /** Jitter keeps a skipping trigger on its grid exactly when it is a whole number of intervals. */
  lemma JitterKeepsGridIff(t: Trigger, firedAt: int, hash: nat)
    requires t.intervalMs > 0 && t.jitterMs >= 0 && !t.catchUp
    ensures OnGrid(t, NextOccurrence(t, firedAt, hash)) <==> (hash % (t.jitterMs + 1)) % t.intervalMs == 0
  {
    var jitter := hash % (t.jitterMs + 1);
    OnGridIff(t, Base(t, firedAt) + jitter);
    SameRemainder(Max(1, (firedAt - t.nextFireAt) / t.intervalMs + 1), jitter, t.intervalMs);
  }

  lemma SameRemainder(n: int, y: int, interval: int)
    requires interval > 0
    ensures (n * interval + y) % interval == y % interval
  {
    var p := y / interval;
    assert y == p * interval + y % interval;
    assert (n + p) * interval == n * interval + p * interval;
    IsRemainder(n * interval + y, n + p, y % interval, interval);
  }

  // ---- the store

  datatype Lease = Lease(owner: OwnerName, expiresAt: int)

  datatype Row = Row(trigger: Trigger, enabled: bool, lease: Option<Lease>)

  /** A slot that an engine claimed, or fired and completed. */
  datatype Firing = Firing(id: Id, slot: int, owner: OwnerName)

  datatype Store = Store(rows: map<Id, Row>, claims: set<Firing>, completed: seq<Firing>)

  datatype Step =
    | Put(id: Id, trigger: Trigger)
    | Claim(now: int, owner: OwnerName, leaseMs: int)
    | Complete(id: Id, owner: OwnerName, firedAt: int, hash: nat)
    | Fail(id: Id, owner: OwnerName, retryAt: int)

  predicate IsFree(row: Row, now: int) { row.lease.None? || row.lease.value.expiresAt <= now }

  predicate IsDue(row: Row, now: int) { row.enabled && row.trigger.nextFireAt <= now && IsFree(row, now) }

  predicate Holds(row: Row, owner: OwnerName) { row.lease.Some? && row.lease.value.owner == owner }

  function PutStep(s: Store, id: Id, t: Trigger): Store {
    if !IsValid(t) then s
    else s.(rows := s.rows[id := Row(t, true, if id in s.rows then s.rows[id].lease else None)])
  }

  function Claimed(row: Row, now: int, owner: OwnerName, leaseMs: int): Row {
    if IsDue(row, now) then row.(lease := Some(Lease(owner, now + leaseMs))) else row
  }

  function ClaimStep(s: Store, now: int, owner: OwnerName, leaseMs: int): Store {
    s.(rows := map id | id in s.rows :: Claimed(s.rows[id], now, owner, leaseMs),
       claims := s.claims
         + set id | id in s.rows && IsDue(s.rows[id], now) :: Firing(id, s.rows[id].trigger.nextFireAt, owner))
  }

  function Advanced(row: Row, firedAt: int, hash: nat): Row {
    var t := row.trigger;
    if t.oneShot then Row(t.(nextFireAt := NEVER), false, None)
    else if t.intervalMs > 0 && t.jitterMs >= 0 then Row(t.(nextFireAt := NextOccurrence(t, firedAt, hash)), true, None)
    else row
  }

  function CompleteStep(s: Store, id: Id, owner: OwnerName, firedAt: int, hash: nat): Store {
    if id !in s.rows || !Holds(s.rows[id], owner) then s
    else
      s.(rows := s.rows[id := Advanced(s.rows[id], firedAt, hash)],
         completed := s.completed + [Firing(id, s.rows[id].trigger.nextFireAt, owner)])
  }

  function FailStep(s: Store, id: Id, owner: OwnerName, retryAt: int): Store {
    if id !in s.rows || !Holds(s.rows[id], owner) then s
    else s.(rows := s.rows[id := s.rows[id].(trigger := s.rows[id].trigger.(nextFireAt := retryAt), lease := None)])
  }

  /** After a failure every later slot is on the former grid exactly when the retry itself is. */
  lemma RetryKeepsGridIff(s: Store, id: Id, owner: OwnerName, retryAt: int, n: int)
    requires id in s.rows && Holds(s.rows[id], owner) && s.rows[id].trigger.intervalMs > 0
    ensures
      var t, after := s.rows[id].trigger, FailStep(s, id, owner, retryAt).rows[id].trigger;
      OnGrid(t, GridAt(after, n)) <==> (retryAt - t.nextFireAt) % t.intervalMs == 0
  {
    var t := s.rows[id].trigger;
    OnGridIff(t, retryAt + n * t.intervalMs);
    SameRemainder(n, retryAt - t.nextFireAt, t.intervalMs);
  }

  /** A minute's grid: a retry half a minute after the slot, as the engine asks for one, leaves it. */
  lemma RetryLeavesGrid(s: Store, id: Id, owner: OwnerName)
    requires id in s.rows && Holds(s.rows[id], owner)
    requires s.rows[id].trigger.intervalMs == 60_000 && s.rows[id].trigger.nextFireAt == 0
    ensures !OnGrid(s.rows[id].trigger, FailStep(s, id, owner, 30_000).rows[id].trigger.nextFireAt)
  {
    OnGridIff(s.rows[id].trigger, 30_000);
  }

  /** So does a jitter of a millisecond. */
  lemma JitterLeavesGrid(t: Trigger)
    requires t.intervalMs == 60_000 && t.nextFireAt == 0 && t.jitterMs == 10 && !t.catchUp
    ensures !OnGrid(t, NextOccurrence(t, 0, 1))
  {
    JitterKeepsGridIff(t, 0, 1);
  }

  function Next(s: Store, step: Step): Store {
    match step
    case Put(id, t) => PutStep(s, id, t)
    case Claim(now, owner, leaseMs) => ClaimStep(s, now, owner, leaseMs)
    case Complete(id, owner, firedAt, hash) => CompleteStep(s, id, owner, firedAt, hash)
    case Fail(id, owner, retryAt) => FailStep(s, id, owner, retryAt)
  }

  function AfterFrom(s: Store, steps: seq<Step>): Store
    decreases |steps|
  {
    if steps == [] then s else AfterFrom(Next(s, steps[0]), steps[1..])
  }

  const EMPTY := Store(map[], {}, [])

  function After(steps: seq<Step>): Store { AfterFrom(EMPTY, steps) }

  // ---- what always holds

  /** Intervals and jitters are what `validateTrigger` lets in. */
  ghost predicate Inv(s: Store) {
    forall id | id in s.rows ::
      && s.rows[id].trigger.jitterMs >= 0
      && (s.rows[id].trigger.oneShot || s.rows[id].trigger.intervalMs >= 1_000)
  }

  lemma {:induction false} StepsKeepInv(s: Store, steps: seq<Step>)
    requires Inv(s)
    ensures Inv(AfterFrom(s, steps))
    decreases |steps|
  {
    if steps != [] { StepsKeepInv(Next(s, steps[0]), steps[1..]); }
  }

  /** Only the owner of the current lease moves a trigger, and a lease changes hands only once it has expired. */
  lemma OnlyTheHolderAdvances(s: Store, step: Step, id: Id)
    requires id in s.rows && !(step.Put? && step.id == id)
    ensures id in Next(s, step).rows
    ensures Next(s, step).rows[id].trigger != s.rows[id].trigger ==>
      (step.Complete? || step.Fail?) && step.id == id && Holds(s.rows[id], step.owner)
    ensures s.rows[id].lease.Some? && Next(s, step).rows[id].lease != s.rows[id].lease ==>
      || (step.Claim? && s.rows[id].lease.value.expiresAt <= step.now)
      || ((step.Complete? || step.Fail?) && step.id == id && Holds(s.rows[id], step.owner))
  {}

  // ---- over whole histories

  /** The slots of one trigger that were completed, in order. */
  function Fired(completed: seq<Firing>, id: Id): seq<int> {
    if completed == [] then []
    else
      Fired(completed[..|completed| - 1], id)
      + if completed[|completed| - 1].id == id then [completed[|completed| - 1].slot] else []
  }

  lemma FiredAppended(completed: seq<Firing>, f: Firing, id: Id)
    ensures Fired(completed + [f], id) == Fired(completed, id) + if f.id == id then [f.slot] else []
  {
    assert (completed + [f])[..|completed|] == completed;
  }

  /** `n` slots from `first` on, one interval apart. */
  function Slots(first: int, interval: int, n: nat): seq<int>
    decreases n
  {
    if n == 0 then [] else [first] + Slots(first + interval, interval, n - 1)
  }

  predicate Touches(step: Step, id: Id) { (step.Put? || step.Fail?) && step.id == id }

  lemma CatchUpStep(s: Store, step: Step, id: Id)
    requires Inv(s) && id in s.rows && s.rows[id].trigger.catchUp && !s.rows[id].trigger.oneShot && !Touches(step, id)
    ensures
      var t, n := s.rows[id].trigger, Next(s, step);
      && id in n.rows && n.rows[id].trigger.catchUp && !n.rows[id].trigger.oneShot
      && n.rows[id].trigger.intervalMs == t.intervalMs
      && (|| (n.rows[id].trigger == t && Fired(n.completed, id) == Fired(s.completed, id))
          || (&& n.rows[id].trigger.nextFireAt == t.nextFireAt + t.intervalMs
              && Fired(n.completed, id) == Fired(s.completed, id) + [t.nextFireAt]))
  {
    if step.Complete? && step.id in s.rows && Holds(s.rows[step.id], step.owner) {
      FiredAppended(s.completed, Firing(step.id, s.rows[step.id].trigger.nextFireAt, step.owner), id);
    }
  }

  /** Without failures, a catching-up trigger completes every slot of its grid, each once and in order. */
  lemma {:induction false} CatchUpFiresEverySlot(s: Store, steps: seq<Step>, id: Id) returns (n: nat)
    requires Inv(s) && id in s.rows && s.rows[id].trigger.catchUp && !s.rows[id].trigger.oneShot
    requires forall i | 0 <= i < |steps| :: !Touches(steps[i], id)
    ensures
      var t, end := s.rows[id].trigger, AfterFrom(s, steps);
      && id in end.rows
      && Fired(end.completed, id) == Fired(s.completed, id) + Slots(t.nextFireAt, t.intervalMs, n)
      && end.rows[id].trigger.nextFireAt == t.nextFireAt + n * t.intervalMs
    decreases |steps|
  {
    if steps == [] {
      n := 0;
    } else {
      var t, next := s.rows[id].trigger, Next(s, steps[0]);
      CatchUpStep(s, steps[0], id);
      StepsKeepInv(s, [steps[0]]);
      assert AfterFrom(s, [steps[0]]) == AfterFrom(next, [steps[0]][1..]) == next;
      n := CatchUpFiresEverySlot(next, steps[1..], id);
      if Fired(next.completed, id) != Fired(s.completed, id) {
        n := n + 1;
        assert n * t.intervalMs == (n - 1) * t.intervalMs + t.intervalMs;
      }
    }
  }

  /** A one-shot that completed is never claimed again, unless it is put anew. */
  lemma {:induction false} OneShotFiresOnce(s: Store, steps: seq<Step>, id: Id)
    requires id in s.rows && !s.rows[id].enabled && s.rows[id].trigger.oneShot && s.rows[id].lease.None?
    requires forall i | 0 <= i < |steps| :: !(steps[i].Put? && steps[i].id == id)
    ensures
      var end := AfterFrom(s, steps);
      && id in end.rows && end.rows[id] == s.rows[id]
      && (forall f | f in end.claims && f.id == id :: f in s.claims)
      && Fired(end.completed, id) == Fired(s.completed, id)
    decreases |steps|
  {
    if steps != [] {
      var step, next := steps[0], Next(s, steps[0]);
      if step.Complete? && step.id in s.rows && Holds(s.rows[step.id], step.owner) {
        FiredAppended(s.completed, Firing(step.id, s.rows[step.id].trigger.nextFireAt, step.owner), id);
      }
      OneShotFiresOnce(next, steps[1..], id);
    }
  }

  /** Completing a one-shot leaves it so. */
  lemma CompletedOneShotRests(s: Store, id: Id, owner: OwnerName, firedAt: int, hash: nat)
    requires id in s.rows && Holds(s.rows[id], owner) && s.rows[id].trigger.oneShot
    ensures
      var row := CompleteStep(s, id, owner, firedAt, hash).rows[id];
      !row.enabled && row.trigger.oneShot && row.lease.None?
  {}

  /** A slot later than every slot completed before, as long as retries move forward. */
  lemma {:induction false} SlotsNeverRepeat(s: Store, steps: seq<Step>, id: Id, i: nat, j: nat)
    requires Inv(s) && id in s.rows && !s.rows[id].trigger.oneShot
    requires Fired(s.completed, id) == []
    requires MovesForward(s, steps, id)
    ensures
      var fired := Fired(AfterFrom(s, steps).completed, id);
      i < j < |fired| ==> fired[i] < fired[j]
  {
    Increasing(s, steps, id);
  }

  /** A failure that its lease makes count. */
  predicate Retries(row: Row, step: Step, id: Id) { step.Fail? && step.id == id && Holds(row, step.owner) }

  /** No `put`, and every failure retries later than the slot that failed. */
  predicate MovesForward(s: Store, steps: seq<Step>, id: Id)
    decreases |steps|
  {
    steps == [] ||
    (&& !(steps[0].Put? && steps[0].id == id)
     && (id in s.rows && Retries(s.rows[id], steps[0], id) ==> steps[0].retryAt > s.rows[id].trigger.nextFireAt)
     && MovesForward(Next(s, steps[0]), steps[1..], id))
  }

  /** Completed slots rise and stay below the next one. */
  ghost predicate Rising(s: Store, id: Id) {
    var fired := Fired(s.completed, id);
    && id in s.rows && !s.rows[id].trigger.oneShot
    && (forall i, j | 0 <= i < j < |fired| :: fired[i] < fired[j])
    && (forall i | 0 <= i < |fired| :: fired[i] < s.rows[id].trigger.nextFireAt)
  }

  lemma RisesStep(s: Store, step: Step, id: Id)
    requires Inv(s) && Rising(s, id) && !(step.Put? && step.id == id)
    requires Retries(s.rows[id], step, id) ==> step.retryAt > s.rows[id].trigger.nextFireAt
    ensures Rising(Next(s, step), id)
  {
    if step.Complete? && step.id in s.rows && Holds(s.rows[step.id], step.owner) {
      FiredAppended(s.completed, Firing(step.id, s.rows[step.id].trigger.nextFireAt, step.owner), id);
      if step.id == id { OccurrencesRise(s.rows[id].trigger, step.firedAt, step.hash); }
    }
  }

  lemma OccurrencesRise(t: Trigger, firedAt: int, hash: nat)
    requires t.intervalMs > 0 && t.jitterMs >= 0
    ensures NextOccurrence(t, firedAt, hash) > t.nextFireAt
  {
    var missed := Max(1, (firedAt - t.nextFireAt) / t.intervalMs + 1);
    assert (missed - 1) * t.intervalMs >= 0;
    assert missed * t.intervalMs == (missed - 1) * t.intervalMs + t.intervalMs;
  }

  lemma {:induction false} Increasing(s: Store, steps: seq<Step>, id: Id)
    requires Inv(s) && Rising(s, id) && MovesForward(s, steps, id)
    ensures Rising(AfterFrom(s, steps), id)
    decreases |steps|
  {
    if steps != [] {
      RisesStep(s, steps[0], id);
      StepsKeepInv(s, [steps[0]]);
      assert AfterFrom(s, [steps[0]]) == AfterFrom(Next(s, steps[0]), [steps[0]][1..]) == Next(s, steps[0]);
      Increasing(Next(s, steps[0]), steps[1..], id);
    }
  }

  // ---- the store's own methods

  class SqliteTriggerStore {
    var rows: map<Id, Row>
    ghost var claims: set<Firing>
    ghost var completed: seq<Firing>

    ghost function State(): Store
      reads this
    {
      Store(rows, claims, completed)
    }

    constructor ()
      ensures State() == EMPTY
    {
      rows, claims, completed := map[], {}, [];
    }

    /** `claimDue`: every due row is leased to the caller, in whatever order the rows come. */
    method ClaimDue(now: int, owner: OwnerName, leaseMs: int) returns (claimed: set<Id>)
      modifies this
      ensures State() == ClaimStep(old(State()), now, owner, leaseMs)
      ensures forall id :: id in claimed <==> id in old(rows) && IsDue(old(rows)[id], now)
    {
      claims := claims + set id | id in rows && IsDue(rows[id], now) :: Firing(id, rows[id].trigger.nextFireAt, owner);
      claimed, rows := LeaseRows(rows, now, owner, leaseMs);
    }

    static method LeaseRows(before: map<Id, Row>, now: int, owner: OwnerName, leaseMs: int)
      returns (claimed: set<Id>, rows: map<Id, Row>)
      ensures rows == map id | id in before :: Claimed(before[id], now, owner, leaseMs)
      ensures forall id :: id in claimed <==> id in before && IsDue(before[id], now)
    {
      claimed, rows := {}, before;
      var todo := before.Keys;
      while todo != {}
        invariant todo <= before.Keys && rows.Keys == before.Keys
        invariant forall id | id in todo :: rows[id] == before[id]
        invariant forall id | id in before && id !in todo :: rows[id] == Claimed(before[id], now, owner, leaseMs)
        invariant forall id :: id in claimed <==> id in before && id !in todo && IsDue(before[id], now)
        decreases |todo|
      {
        var id :| id in todo;
        todo := todo - {id};
        rows := rows[id := Claimed(rows[id], now, owner, leaseMs)];
        if IsDue(before[id], now) { claimed := claimed + {id}; }
      }
    }

    method Complete(id: Id, owner: OwnerName, firedAt: int, hash: nat) returns (ok: bool)
      modifies this
      ensures State() == CompleteStep(old(State()), id, owner, firedAt, hash)
      ensures ok <==> id in old(rows) && Holds(old(rows)[id], owner)
    {
      if id !in rows || !Holds(rows[id], owner) { return false; }
      completed := completed + [Firing(id, rows[id].trigger.nextFireAt, owner)];
      rows := rows[id := Advanced(rows[id], firedAt, hash)];
      ok := true;
    }

    method Fail(id: Id, owner: OwnerName, retryAt: int) returns (ok: bool)
      modifies this
      ensures State() == FailStep(old(State()), id, owner, retryAt)
      ensures ok <==> id in old(rows) && Holds(old(rows)[id], owner)
    {
      if id !in rows || !Holds(rows[id], owner) { return false; }
      rows := rows[id := rows[id].(trigger := rows[id].trigger.(nextFireAt := retryAt), lease := None)];
      ok := true;
    }
  }
}
