/**
 Scheduler engines on one trigger store. An engine claims what is due for thirty seconds, has a run
 created for each claimed slot, and then completes the trigger or puts it off. Engines share a clock;
 the await for a run may end at any later time, or never.
 */
module SchedulerEngine {
  import opened Wrappers
  import T = Triggers

  /** A claimed slot whose run is being created, and when it was claimed. */
  datatype Flight = Flight(id: T.Id, slot: int, owner: T.OwnerName, at: int)

  /** A run that was created for a claim, and when the claim reported back to the store, if it ever did. */
  datatype Creation = Creation(flight: Flight, ended: Option<int>)

  /**
   `holder`: the claim each row's lease comes from. `created`: every run that was created, in order.
   `fired`: the claimed slots for which that was so and whose completion the store accepted.
   */
  datatype World = World(
    store: T.Store, flights: set<Flight>, holder: map<T.Id, Flight>, created: seq<Creation>, fired: seq<T.Firing>,
    clock: int)

  /** How one claim ends: no run is created, or one is and the completion that follows is made or throws. */
  datatype Ending = NotCreated | Completed(hash: nat) | CompletionThrew

  /** `Lose`: the engine stops, or its last write throws, after the run was created or before. */
  datatype Step =
    | Wait(ms: nat)
    | Ensure(id: T.Id, trigger: T.Trigger)
    | Tick(owner: T.OwnerName)
    | Finish(flight: Flight, ending: Ending)
    | Lose(flight: Flight, created: bool)

  const LEASE_MS := 30_000
  const RETRY_MS := 30_000

  function FiringOf(f: Flight): T.Firing { T.Firing(f.id, f.slot, f.owner) }

  /** The store still takes this owner's word for the trigger. */
  predicate Accepted(s: T.Store, f: Flight) { f.id in s.rows && T.Holds(s.rows[f.id], f.owner) }

  function Due(w: World): set<T.Id> { set id | id in w.store.rows && T.IsDue(w.store.rows[id], w.clock) }

  function Claim(w: World, id: T.Id, owner: T.OwnerName): Flight
    requires id in w.store.rows
  {
    Flight(id, w.store.rows[id].trigger.nextFireAt, owner, w.clock)
  }

  /** `tick`, up to its first await. */
  function TickStep(w: World, owner: T.OwnerName): World {
    var due := Due(w);
    w.(store := T.ClaimStep(w.store, w.clock, owner, LEASE_MS),
       flights := w.flights + set id | id in due :: Claim(w, id, owner),
       holder := map id | id in w.holder.Keys + due :: if id in due then Claim(w, id, owner) else w.holder[id])
  }

  /** `tick`, when the run of one claimed slot has been created or not; a completion that throws ends as a failure. */
  function FinishStep(w: World, f: Flight, ending: Ending): World {
    if f !in w.flights then w else
    var n := w.(flights := w.flights - {f});
    match ending
    case NotCreated => n.(store := T.FailStep(w.store, f.id, f.owner, f.at + RETRY_MS))
    case CompletionThrew =>
      n.(store := T.FailStep(w.store, f.id, f.owner, f.at + RETRY_MS), created := w.created + [Creation(f, Some(w.clock))])
    case Completed(hash) =>
      n.(store := T.CompleteStep(w.store, f.id, f.owner, f.at, hash), created := w.created + [Creation(f, Some(w.clock))],
         fired := w.fired + if Accepted(w.store, f) then [FiringOf(f)] else [])
  }

  function LoseStep(w: World, f: Flight, created: bool): World {
    if f !in w.flights then w
    else w.(flights := w.flights - {f}, created := w.created + if created then [Creation(f, None)] else [])
  }

  /** `ensure`: a trigger that is there stays as it is. */
  function EnsureStep(w: World, id: T.Id, t: T.Trigger): World {
    if id in w.store.rows then w else w.(store := T.PutStep(w.store, id, t))
  }

  function Next(w: World, step: Step): World {
    match step
    case Wait(ms) => w.(clock := w.clock + ms)
    case Ensure(id, t) => EnsureStep(w, id, t)
    case Tick(owner) => TickStep(w, owner)
    case Finish(f, ending) => FinishStep(w, f, ending)
    case Lose(f, created) => LoseStep(w, f, created)
  }

  function AfterFrom(w: World, steps: seq<Step>): World
    decreases |steps|
  {
    if steps == [] then w else AfterFrom(Next(w, steps[0]), steps[1..])
  }

  const START := World(T.EMPTY, {}, map[], [], [], 0)

  function After(steps: seq<Step>): World { AfterFrom(START, steps) }

  // ---- what always holds

  /** A lease comes from the claim of the slot that its row shows. */
  ghost predicate LeaseFits(w: World, id: T.Id)
    requires id in w.store.rows
  {
    var row := w.store.rows[id];
    row.lease.Some? ==>
      && id in w.holder && w.holder[id].id == id
      && row.lease.value == T.Lease(w.holder[id].owner, w.holder[id].at + LEASE_MS)
      && row.trigger.nextFireAt == w.holder[id].slot <= w.holder[id].at <= w.clock
  }

  ghost predicate Inv(w: World) {
    && T.Inv(w.store)
    && (forall id | id in w.store.rows :: LeaseFits(w, id))
    && (forall f | f in w.flights :: f.id in w.store.rows && f.slot <= f.at <= w.clock)
  }

  lemma TickKeepsInv(w: World, owner: T.OwnerName)
    requires Inv(w)
    ensures Inv(TickStep(w, owner))
  {
    var n := TickStep(w, owner);
    forall id | id in n.store.rows ensures LeaseFits(n, id) {
      assert LeaseFits(w, id);
    }
  }

  lemma FinishKeepsInv(w: World, f: Flight, ending: Ending)
    requires Inv(w)
    ensures Inv(FinishStep(w, f, ending))
  {
    var n := FinishStep(w, f, ending);
    forall id | id in n.store.rows ensures LeaseFits(n, id) {
      assert LeaseFits(w, id);
    }
  }

  lemma StepKeepsInv(w: World, step: Step)
    requires Inv(w)
    ensures Inv(Next(w, step))
  {
    match step
    case Wait(ms) =>
      forall id | id in w.store.rows ensures LeaseFits(Next(w, step), id) { assert LeaseFits(w, id); }
    case Ensure(id, t) =>
      forall i | i in Next(w, step).store.rows ensures LeaseFits(Next(w, step), i) {
        if i in w.store.rows { assert LeaseFits(w, i); }
      }
    case Tick(owner) => TickKeepsInv(w, owner);
    case Finish(f, ending) => FinishKeepsInv(w, f, ending);
    case Lose(_, _) =>
      forall id | id in w.store.rows ensures LeaseFits(Next(w, step), id) { assert LeaseFits(w, id); }
  }

  // ---- when the store's record is true

  /** A completion is fair when the lease it ends was taken for the slot whose run was created. */
  predicate FairStep(w: World, step: Step) {
    step.Finish? && step.ending.Completed? && step.flight in w.flights && Accepted(w.store, step.flight) ==>
      step.flight.id in w.holder && w.holder[step.flight.id].slot == step.flight.slot
  }

  predicate Fair(w: World, steps: seq<Step>)
    decreases |steps|
  {
    steps == [] || (FairStep(w, steps[0]) && Fair(Next(w, steps[0]), steps[1..]))
  }

  /** What a step adds to the store's record and to the slots that really fired. */
  lemma RecordsGrow(w: World, step: Step) returns (recorded: seq<T.Firing>, fired: seq<T.Firing>)
    requires Inv(w)
    ensures Next(w, step).store.completed == w.store.completed + recorded && Next(w, step).fired == w.fired + fired
    ensures |recorded| == |fired| && (recorded == fired <==> FairStep(w, step))
  {
    recorded, fired := [], [];
    if step.Finish? && step.ending.Completed? && step.flight in w.flights && Accepted(w.store, step.flight) {
      var f := step.flight;
      assert LeaseFits(w, f.id);
      recorded, fired := [T.Firing(f.id, w.holder[f.id].slot, f.owner)], [FiringOf(f)];
      assert recorded[0] == fired[0] <==> recorded == fired;
    }
  }

  lemma SameEnds(a: seq<T.Firing>, x: seq<T.Firing>, b: seq<T.Firing>, y: seq<T.Firing>)
    requires |x| == |y|
    ensures a + x == b + y <==> a == b && x == y
  {
    if a + x == b + y {
      assert |a| == |b|;
      assert (a + x)[..|a|] == a && (b + y)[..|b|] == b && (a + x)[|a|..] == x && (b + y)[|b|..] == y;
    }
  }

  lemma {:induction false} TrueFromIff(w: World, steps: seq<Step>)
    requires Inv(w) && |w.store.completed| == |w.fired|
    ensures
      var end := AfterFrom(w, steps);
      && |end.store.completed| == |end.fired|
      && (end.store.completed == end.fired <==> w.store.completed == w.fired && Fair(w, steps))
    decreases |steps|
  {
    if steps != [] {
      StepKeepsInv(w, steps[0]);
      var recorded, fired := RecordsGrow(w, steps[0]);
      SameEnds(w.store.completed, recorded, w.fired, fired);
      TrueFromIff(Next(w, steps[0]), steps[1..]);
    }
  }

  /**
   The slots that the store records as completed are those whose runs were created by the claims that
   completed them, in the same order, exactly when each completion ended a lease taken for its slot.
   */
  lemma RecordIsTrueIff(steps: seq<Step>)
    ensures After(steps).store.completed == After(steps).fired <==> Fair(START, steps)
  {
    TrueFromIff(START, steps);
  }

  // ---- when engines keep to themselves

  /** No claim by this name is still under way after its lease has run out. */
  predicate MayTick(w: World, owner: T.OwnerName) {
    forall f | f in w.flights && f.owner == owner :: w.clock < f.at + LEASE_MS
  }

  /** Whenever an engine ticks, creating a run has taken no longer than the lease, or the engine has another name. */
  predicate Orderly(w: World, steps: seq<Step>)
    decreases |steps|
  {
    steps == [] || ((steps[0].Tick? ==> MayTick(w, steps[0].owner)) && Orderly(Next(w, steps[0]), steps[1..]))
  }

  predicate Leased(w: World, f: Flight) {
    && f.id in w.store.rows && w.store.rows[f.id].lease == Some(T.Lease(f.owner, f.at + LEASE_MS))
    && f.id in w.holder && w.holder[f.id] == f
  }

  /** The claim has its lease until it runs out, and is taken for no other of the same name. */
  ghost predicate Own(w: World, f: Flight) {
    && (Leased(w, f) || w.clock >= f.at + LEASE_MS)
    && (Accepted(w.store, f) ==> f.id in w.holder && w.holder[f.id] == f)
  }

  ghost predicate Sound(w: World) {
    && Inv(w) && (forall f | f in w.flights :: Own(w, f)) && w.store.completed == w.fired
  }

  lemma TickKeepsOwn(w: World, owner: T.OwnerName, f: Flight)
    requires Inv(w) && MayTick(w, owner) && f in w.flights && Own(w, f)
    ensures Own(TickStep(w, owner), f)
  {}

  lemma ClaimIsOwn(w: World, owner: T.OwnerName, id: T.Id)
    requires Inv(w) && id in Due(w)
    ensures Own(TickStep(w, owner), Claim(w, id, owner))
  {}

  lemma TickKeepsSound(w: World, owner: T.OwnerName)
    requires Sound(w) && MayTick(w, owner)
    ensures Sound(TickStep(w, owner))
  {
    TickKeepsInv(w, owner);
    forall f | f in TickStep(w, owner).flights ensures Own(TickStep(w, owner), f) {
      if f in w.flights { TickKeepsOwn(w, owner, f); } else { ClaimIsOwn(w, owner, f.id); }
    }
  }

  lemma FinishKeepsOwn(w: World, f: Flight, ending: Ending, other: Flight)
    requires Inv(w) && f in w.flights && Own(w, f) && other in w.flights && Own(w, other) && other != f
    ensures Own(FinishStep(w, f, ending), other)
  {}

  lemma FinishIsFair(w: World, f: Flight, ending: Ending)
    requires Inv(w) && Own(w, f) && w.store.completed == w.fired
    ensures FairStep(w, Finish(f, ending))
    ensures FinishStep(w, f, ending).store.completed == FinishStep(w, f, ending).fired
  {
    var _, _ := RecordsGrow(w, Finish(f, ending));
  }

  lemma FinishKeepsSound(w: World, f: Flight, ending: Ending)
    requires Sound(w) && f in w.flights
    ensures Sound(FinishStep(w, f, ending))
  {
    FinishKeepsInv(w, f, ending);
    FinishIsFair(w, f, ending);
    forall other | other in FinishStep(w, f, ending).flights ensures Own(FinishStep(w, f, ending), other) {
      FinishKeepsOwn(w, f, ending, other);
    }
  }

  lemma EnsureKeepsOwn(w: World, id: T.Id, t: T.Trigger, f: Flight)
    requires Inv(w) && f in w.flights && Own(w, f)
    ensures Own(EnsureStep(w, id, t), f)
  {}

  lemma StepKeepsSound(w: World, step: Step)
    requires Sound(w) && (step.Tick? ==> MayTick(w, step.owner))
    ensures Sound(Next(w, step))
  {
    StepKeepsInv(w, step);
    match step
    case Wait(_) => assert forall f | f in w.flights :: Own(w, f) && Own(Next(w, step), f);
    case Ensure(id, t) =>
      forall f | f in w.flights ensures Own(Next(w, step), f) { EnsureKeepsOwn(w, id, t, f); }
    case Tick(owner) => TickKeepsSound(w, owner);
    case Finish(f, ending) => if f in w.flights { FinishKeepsSound(w, f, ending); }
    case Lose(_, _) => assert forall f | f in w.flights :: Own(w, f) && Own(Next(w, step), f);
  }

  lemma {:induction false} StepsKeepSound(w: World, steps: seq<Step>)
    requires Sound(w) && Orderly(w, steps)
    ensures Sound(AfterFrom(w, steps))
    decreases |steps|
  {
    if steps != [] {
      StepKeepsSound(w, steps[0]);
      StepsKeepSound(Next(w, steps[0]), steps[1..]);
    }
  }

  /** When engines are orderly, every slot recorded as completed is one whose run was created by the claim that completed it. */
  lemma OrderlyRecordIsTrue(steps: seq<Step>)
    requires Orderly(START, steps)
    ensures Sound(After(steps)) && After(steps).store.completed == After(steps).fired && Fair(START, steps)
  {
    StepsKeepSound(START, steps);
    RecordIsTrueIff(steps);
  }

  // ---- what the engines' steps are to the store

  function StoreStep(w: World, step: Step): seq<T.Step> {
    match step
    case Ensure(id, t) => if id in w.store.rows then [] else [T.Put(id, t)]
    case Tick(owner) => [T.Claim(w.clock, owner, LEASE_MS)]
    case Finish(f, ending) =>
      if f !in w.flights then []
      else if ending.Completed? then [T.Complete(f.id, f.owner, f.at, ending.hash)]
      else [T.Fail(f.id, f.owner, f.at + RETRY_MS)]
    case _ => []
  }

  function StoreSteps(w: World, steps: seq<Step>): seq<T.Step>
    decreases |steps|
  {
    if steps == [] then [] else StoreStep(w, steps[0]) + StoreSteps(Next(w, steps[0]), steps[1..])
  }

  lemma OneStoreStep(w: World, step: Step, more: seq<T.Step>)
    ensures T.AfterFrom(w.store, StoreStep(w, step) + more) == T.AfterFrom(Next(w, step).store, more)
  {
    var first := StoreStep(w, step);
    if first == [] {
      assert first + more == more;
    } else {
      assert (first + more)[0] == first[0] && (first + more)[1..] == more;
    }
  }

  lemma {:induction false} StoreFollows(w: World, steps: seq<Step>)
    ensures AfterFrom(w, steps).store == T.AfterFrom(w.store, StoreSteps(w, steps))
    decreases |steps|
  {
    if steps != [] {
      OneStoreStep(w, steps[0], StoreSteps(Next(w, steps[0]), steps[1..]));
      StoreFollows(Next(w, steps[0]), steps[1..]);
    }
  }

  /** No run of this trigger fails to be created, and no completion throws. */
  predicate NoFailure(steps: seq<Step>, id: T.Id) {
    forall i | 0 <= i < |steps| :: steps[i].Finish? && steps[i].flight.id == id ==> steps[i].ending.Completed?
  }

  lemma {:induction false} Untouched(w: World, steps: seq<Step>, id: T.Id)
    requires id in w.store.rows && NoFailure(steps, id)
    ensures forall i | 0 <= i < |StoreSteps(w, steps)| :: !T.Touches(StoreSteps(w, steps)[i], id)
    decreases |steps|
  {
    if steps != [] { Untouched(Next(w, steps[0]), steps[1..], id); }
  }

  /**
   Orderly engines whose runs get created complete every slot of a catching-up trigger, each once, in
   order and after its run was created, whatever engines come and go.
   */
  lemma CatchUpFiresEverySlot(w: World, steps: seq<Step>, id: T.Id) returns (n: nat)
    requires Sound(w) && Orderly(w, steps) && NoFailure(steps, id)
    requires id in w.store.rows && w.store.rows[id].trigger.catchUp && !w.store.rows[id].trigger.oneShot
    ensures
      var t, end := w.store.rows[id].trigger, AfterFrom(w, steps);
      && id in end.store.rows
      && T.Fired(end.fired, id) == T.Fired(w.fired, id) + T.Slots(t.nextFireAt, t.intervalMs, n)
      && end.store.rows[id].trigger.nextFireAt == t.nextFireAt + n * t.intervalMs
  {
    StepsKeepSound(w, steps);
    StoreFollows(w, steps);
    Untouched(w, steps, id);
    n := T.CatchUpFiresEverySlot(w.store, StoreSteps(w, steps), id);
  }

  /** Whoever does not hold the lease moves nothing; whoever does claimed the very slot, and not before its time. */
  lemma RetriesForward(w: World, step: Step, id: T.Id)
    requires Sound(w) && id in w.store.rows
    ensures
      var steps := StoreStep(w, step);
      forall i | 0 <= i < |steps| ::
        && !(steps[i].Put? && steps[i].id == id)
        && (T.Retries(w.store.rows[id], steps[i], id) ==> steps[i].retryAt > w.store.rows[id].trigger.nextFireAt)
  {
    if step.Finish? && !step.ending.Completed? && step.flight in w.flights {
      assert LeaseFits(w, id) && Own(w, step.flight);
    }
  }

  lemma ForwardFirst(w: World, step: Step, more: seq<T.Step>, id: T.Id)
    requires Sound(w) && id in w.store.rows && T.MovesForward(Next(w, step).store, more, id)
    ensures T.MovesForward(w.store, StoreStep(w, step) + more, id)
  {
    var first := StoreStep(w, step);
    RetriesForward(w, step, id);
    if first == [] {
      assert first + more == more;
    } else {
      assert (first + more)[0] == first[0] && (first + more)[1..] == more;
    }
  }

  lemma {:induction false} Forward(w: World, steps: seq<Step>, id: T.Id)
    requires Sound(w) && Orderly(w, steps) && id in w.store.rows
    ensures T.MovesForward(w.store, StoreSteps(w, steps), id)
    decreases |steps|
  {
    if steps != [] {
      StepKeepsSound(w, steps[0]);
      Forward(Next(w, steps[0]), steps[1..], id);
      ForwardFirst(w, steps[0], StoreSteps(Next(w, steps[0]), steps[1..]), id);
    }
  }

  /**
   Under orderly engines, failures or not, the slots of a trigger that complete keep rising: no slot is
   completed twice, and none after a later one.
   */
  lemma SlotsNeverRepeat(w: World, steps: seq<Step>, id: T.Id, i: nat, j: nat)
    requires Sound(w) && Orderly(w, steps) && T.Fired(w.fired, id) == []
    requires id in w.store.rows && !w.store.rows[id].trigger.oneShot
    ensures
      var fired := T.Fired(AfterFrom(w, steps).fired, id);
      i < j < |fired| ==> fired[i] < fired[j]
  {
    StepsKeepSound(w, steps);
    StoreFollows(w, steps);
    Forward(w, steps, id);
    T.SlotsNeverRepeat(w.store, StoreSteps(w, steps), id, i, j);
  }

  // ---- how often a run is created

  predicate SameSlot(f: Flight, g: Flight) { f.id == g.id && f.slot == g.slot }

  /** The claim reported back when its lease had run out, or never. */
  predicate Late(c: Creation) { c.ended.None? || c.ended.value >= c.flight.at + LEASE_MS }

  predicate LeaseRanOutBefore(f: Flight, g: Flight) { f.at + LEASE_MS <= g.at }

  /** The claim of `c` outlived its lease, and `g` claimed the same slot after that. */
  predicate Overtaken(c: Creation, g: Flight) { SameSlot(c.flight, g) && Late(c) && LeaseRanOutBefore(c.flight, g) }

  /** A trigger has moved past a slot whose run was created, unless the claim was late. */
  ghost predicate Passed(w: World, c: Creation) {
    && c.flight.id in w.store.rows && c.flight.at <= w.clock && (c.ended.Some? ==> c.ended.value <= w.clock)
    && (c.ended.None? ==> Leased(w, c.flight) || w.clock >= c.flight.at + LEASE_MS)
    && var row := w.store.rows[c.flight.id];
       row.enabled ==>
         c.flight.slot <= row.trigger.nextFireAt && (c.flight.slot == row.trigger.nextFireAt ==> Late(c))
  }

  ghost predicate Ahead(w: World, f: Flight) {
    && f.id in w.store.rows
    && (w.store.rows[f.id].enabled ==> f.slot <= w.store.rows[f.id].trigger.nextFireAt)
  }

  /** Two claims of one slot: the later one was made when the earlier one's lease had run out. */
  ghost predicate Logged(w: World) {
    && (forall id | id in w.store.rows && !w.store.rows[id].enabled :: w.store.rows[id].lease.None?)
    && (forall c | c in w.created :: Passed(w, c))
    && (forall f | f in w.flights :: Ahead(w, f))
    && (forall c, f | c in w.created && f in w.flights && SameSlot(c.flight, f) ::
          Overtaken(c, f) || LeaseRanOutBefore(f, c.flight))
    && (forall f, g | f in w.flights && g in w.flights && f != g && SameSlot(f, g) ::
          LeaseRanOutBefore(f, g) || LeaseRanOutBefore(g, f))
    && Spaced(w.created)
  }

  ghost predicate Spaced(cs: seq<Creation>) {
    forall i, j | 0 <= i < j < |cs| && SameSlot(cs[i].flight, cs[j].flight) ::
      Overtaken(cs[i], cs[j].flight) || Overtaken(cs[j], cs[i].flight)
  }

  /** The step ends a claim of this trigger, and the store accepts that. */
  predicate Ends(w: World, step: Step, id: T.Id) {
    step.Finish? && step.flight in w.flights && step.flight.id == id && Accepted(w.store, step.flight)
  }

  /** A row that has been there moves forward only, and past the slot of a claim that the store accepts. */
  lemma RowRises(w: World, step: Step, id: T.Id)
    requires Sound(w) && Logged(w) && id in w.store.rows
    ensures
      var row, now := w.store.rows[id], Next(w, step).store;
      && id in now.rows
      && (now.rows[id].enabled ==> row.enabled && row.trigger.nextFireAt <= now.rows[id].trigger.nextFireAt)
      && (Ends(w, step, id) && now.rows[id].enabled ==> step.flight.slot < now.rows[id].trigger.nextFireAt)
      && (!now.rows[id].enabled ==> now.rows[id].lease.None?)
  {
    if Ends(w, step, id) {
      assert Own(w, step.flight) && LeaseFits(w, id);
      if step.ending.Completed? && !w.store.rows[id].trigger.oneShot {
        T.OccurrencesRise(w.store.rows[id].trigger, step.flight.at, step.ending.hash);
      }
    }
  }

  /** A claim that never reports back keeps its lease until it runs out. */
  lemma LostKeepsLease(w: World, step: Step, c: Creation)
    requires Sound(w) && Logged(w) && c in w.created && Leased(w, c.flight) && w.clock < c.flight.at + LEASE_MS
    ensures Leased(Next(w, step), c.flight) || Next(w, step).clock >= c.flight.at + LEASE_MS
  {}

  lemma StaysPassed(w: World, step: Step, c: Creation)
    requires Sound(w) && Logged(w) && c in w.created
    ensures Passed(Next(w, step), c)
  {
    assert Passed(w, c);
    RowRises(w, step, c.flight.id);
    if Leased(w, c.flight) && w.clock < c.flight.at + LEASE_MS { LostKeepsLease(w, step, c); }
  }

  lemma StaysAhead(w: World, step: Step, f: Flight)
    requires Sound(w) && Logged(w) && Ahead(w, f)
    ensures Ahead(Next(w, step), f)
  {
    RowRises(w, step, f.id);
  }

  /** A slot that is due again was claimed before by claims whose leases have run out. */
  lemma ClaimComesAfter(w: World, id: T.Id, owner: T.OwnerName, f: Flight)
    requires Sound(w) && id in Due(w) && f in w.flights && SameSlot(f, Claim(w, id, owner))
    ensures LeaseRanOutBefore(f, Claim(w, id, owner))
  {
    assert Own(w, f);
  }

  lemma ClaimOvertakes(w: World, id: T.Id, owner: T.OwnerName, c: Creation)
    requires Sound(w) && Logged(w) && id in Due(w) && c in w.created && SameSlot(c.flight, Claim(w, id, owner))
    ensures Overtaken(c, Claim(w, id, owner))
  {
    assert Passed(w, c);
  }

  /** A claim that ends with a run created: its trigger moves on, or it was late. */
  lemma EndedIsPassed(w: World, step: Step)
    requires Sound(w) && Logged(w) && (step.Finish? || step.Lose?) && step.flight in w.flights
    ensures Passed(Next(w, step), Creation(step.flight, if step.Finish? then Some(w.clock) else None))
  {
    var f := step.flight;
    assert Own(w, f) && Ahead(w, f);
    RowRises(w, step, f.id);
  }

  /** The claims under way after a step were under way before, or have just been made. */
  lemma TickKeepsLog(w: World, owner: T.OwnerName)
    requires Sound(w) && Logged(w)
    ensures Logged(TickStep(w, owner))
  {
    var n := TickStep(w, owner);
    forall id | id in n.store.rows && !n.store.rows[id].enabled ensures n.store.rows[id].lease.None? {
      RowRises(w, Tick(owner), id);
    }
    forall c | c in n.created ensures Passed(n, c) { StaysPassed(w, Tick(owner), c); }
    forall f | f in n.flights ensures Ahead(n, f) { if f in w.flights { StaysAhead(w, Tick(owner), f); } }
    forall c, f | c in n.created && f in n.flights && SameSlot(c.flight, f)
      ensures Overtaken(c, f) || LeaseRanOutBefore(f, c.flight)
    {
      if f !in w.flights { ClaimOvertakes(w, f.id, owner, c); }
    }
    forall f, g | f in n.flights && g in n.flights && f != g && SameSlot(f, g)
      ensures LeaseRanOutBefore(f, g) || LeaseRanOutBefore(g, f)
    {
      if g !in w.flights && f in w.flights { ClaimComesAfter(w, g.id, owner, f); }
      if f !in w.flights && g in w.flights { ClaimComesAfter(w, f.id, owner, g); }
    }
  }

  /** One more run is created, by a claim that ends. */
  lemma CreationFits(w: World, c: Creation)
    requires Sound(w) && Logged(w) && c.flight in w.flights && (c.ended.Some? ==> c.ended.value == w.clock)
    ensures forall d | d in w.created && SameSlot(d.flight, c.flight) :: Overtaken(d, c.flight) || Overtaken(c, d.flight)
    ensures forall f | f in w.flights && f != c.flight && SameSlot(c.flight, f) ::
      Overtaken(c, f) || LeaseRanOutBefore(f, c.flight)
  {
    forall d | d in w.created && SameSlot(d.flight, c.flight) ensures Overtaken(d, c.flight) || Overtaken(c, d.flight) {
      assert Passed(w, d);
    }
  }

  lemma StaysSpaced(cs: seq<Creation>, c: Creation)
    requires Spaced(cs)
    requires forall d | d in cs && SameSlot(d.flight, c.flight) :: Overtaken(d, c.flight) || Overtaken(c, d.flight)
    ensures Spaced(cs + [c])
  {
    assert forall i | 0 <= i < |cs| :: cs[i] in cs;
  }

  lemma EndKeepsPassed(w: World, step: Step)
    requires Sound(w) && Logged(w) && (step.Finish? || step.Lose?) && step.flight in w.flights
    ensures forall d | d in Next(w, step).created :: Passed(Next(w, step), d)
  {
    var n := Next(w, step);
    EndedIsPassed(w, step);
    forall d | d in n.created ensures Passed(n, d) { if d in w.created { StaysPassed(w, step, d); } }
  }

  lemma EndKeepsLog(w: World, step: Step)
    requires Sound(w) && Logged(w) && (step.Finish? || step.Lose?) && step.flight in w.flights
    ensures Logged(Next(w, step))
  {
    var n, c := Next(w, step), Creation(step.flight, if step.Finish? then Some(w.clock) else None);
    assert n.created == w.created || n.created == w.created + [c];
    EndKeepsPassed(w, step);
    CreationFits(w, c);
    StaysSpaced(w.created, c);
    forall id | id in n.store.rows && !n.store.rows[id].enabled ensures n.store.rows[id].lease.None? {
      RowRises(w, step, id);
    }
    forall f | f in n.flights ensures Ahead(n, f) { StaysAhead(w, step, f); }
  }

  lemma StepKeepsLog(w: World, step: Step)
    requires Sound(w) && Logged(w)
    ensures Logged(Next(w, step))
  {
    if step.Tick? {
      TickKeepsLog(w, step.owner);
    } else if (step.Finish? || step.Lose?) && step.flight in w.flights {
      EndKeepsLog(w, step);
    } else {
      var n := Next(w, step);
      forall id | id in n.store.rows && !n.store.rows[id].enabled ensures n.store.rows[id].lease.None? {
        if id in w.store.rows { RowRises(w, step, id); }
      }
      forall c | c in n.created ensures Passed(n, c) { StaysPassed(w, step, c); }
      forall f | f in n.flights ensures Ahead(n, f) { StaysAhead(w, step, f); }
    }
  }

  lemma {:induction false} StepsKeepLog(w: World, steps: seq<Step>)
    requires Sound(w) && Logged(w) && Orderly(w, steps)
    ensures Logged(AfterFrom(w, steps))
    decreases |steps|
  {
    if steps != [] {
      StepKeepsSound(w, steps[0]);
      StepKeepsLog(w, steps[0]);
      StepsKeepLog(Next(w, steps[0]), steps[1..]);
    }
  }

  ghost predicate CreatedTwice(w: World, id: T.Id, slot: int) {
    exists i, j :: 0 <= i < j < |w.created| && OfSlot(w.created[i], id, slot) && OfSlot(w.created[j], id, slot)
  }

  predicate OfSlot(c: Creation, id: T.Id, slot: int) { c.flight.id == id && c.flight.slot == slot }

  /** A claim whose run was created outlived its lease, and the run was created again by a claim made after that. */
  ghost predicate TakenOver(w: World, id: T.Id, slot: int) {
    exists i, j :: 0 <= i < |w.created| && 0 <= j < |w.created|
      && OfSlot(w.created[i], id, slot) && Overtaken(w.created[i], w.created[j].flight)
  }

  lemma TwiceIsTakenOver(w: World, id: T.Id, slot: int)
    requires Spaced(w.created) && CreatedTwice(w, id, slot)
    ensures TakenOver(w, id, slot)
  {
    var i, j :| 0 <= i < j < |w.created| && OfSlot(w.created[i], id, slot) && OfSlot(w.created[j], id, slot);
    assert Overtaken(w.created[i], w.created[j].flight) || Overtaken(w.created[j], w.created[i].flight);
  }

  lemma TakenOverIsTwice(w: World, id: T.Id, slot: int)
    requires TakenOver(w, id, slot)
    ensures CreatedTwice(w, id, slot)
  {
    var i, j :| 0 <= i < |w.created| && 0 <= j < |w.created|
      && OfSlot(w.created[i], id, slot) && Overtaken(w.created[i], w.created[j].flight);
    assert i != j && OfSlot(w.created[j], id, slot);
    if i < j { assert 0 <= i < j < |w.created|; } else { assert 0 <= j < i < |w.created|; }
  }

  lemma StartIsLogged()
    ensures Sound(START) && Logged(START)
  {}

  /**
   Under orderly engines, a slot's run is created more than once exactly when a claim that created it
   outlived its lease and a claim made after that created it again.
   */
  lemma CreatedTwiceIff(steps: seq<Step>, id: T.Id, slot: int)
    requires Orderly(START, steps)
    ensures CreatedTwice(After(steps), id, slot) <==> TakenOver(After(steps), id, slot)
  {
    StartIsLogged();
    StepsKeepLog(START, steps);
    if CreatedTwice(After(steps), id, slot) { TwiceIsTakenOver(After(steps), id, slot); }
    if TakenOver(After(steps), id, slot) { TakenOverIsTwice(After(steps), id, slot); }
  }

  /** A slot each of whose claims reports back within its lease has its run created once at most. */
  lemma PromptCreatesOnce(steps: seq<Step>, id: T.Id, slot: int)
    requires Orderly(START, steps)
    requires forall c | c in After(steps).created && OfSlot(c, id, slot) :: !Late(c)
    ensures !CreatedTwice(After(steps), id, slot)
  {
    CreatedTwiceIff(steps, id, slot);
  }

  // ---- created and completed

  function Firings(cs: seq<Creation>): seq<T.Firing> {
    if cs == [] then [] else Firings(cs[..|cs| - 1]) + [FiringOf(cs[|cs| - 1].flight)]
  }

  lemma FiringsAppended(cs: seq<Creation>, c: Creation)
    ensures Firings(cs + [c]) == Firings(cs) + [FiringOf(c.flight)]
  {
    assert (cs + [c])[..|cs|] == cs;
  }

  lemma {:induction false} FiringsSize(cs: seq<Creation>)
    ensures |Firings(cs)| == |cs|
  {
    if cs != [] { FiringsSize(cs[..|cs| - 1]); }
  }

  /** A step that creates a run also completes its slot. */
  predicate KeptStep(w: World, step: Step) {
    match step
    case Finish(f, ending) => f in w.flights && !ending.NotCreated? ==> ending.Completed? && Accepted(w.store, f)
    case Lose(f, created) => f in w.flights ==> !created
    case _ => true
  }

  predicate Kept(w: World, steps: seq<Step>)
    decreases |steps|
  {
    steps == [] || (KeptStep(w, steps[0]) && Kept(Next(w, steps[0]), steps[1..]))
  }

  /** Whatever completes was created in the same step. */
  lemma StepCreates(w: World, step: Step)
    ensures
      var n := Next(w, step);
      || (n.created == w.created && n.fired == w.fired && KeptStep(w, step))
      || (&& (step.Finish? || step.Lose?) && |n.created| == |w.created| + 1
          && Firings(n.created) == Firings(w.created) + [FiringOf(step.flight)]
          && n.fired == w.fired + if KeptStep(w, step) then [FiringOf(step.flight)] else [])
  {
    if step.Finish? || step.Lose? {
      FiringsAppended(w.created, Creation(step.flight, if step.Finish? then Some(w.clock) else None));
    }
  }

  lemma {:induction false} KeptFromIff(w: World, steps: seq<Step>)
    requires |w.fired| <= |w.created|
    ensures
      var end := AfterFrom(w, steps);
      && |end.fired| <= |end.created| && |w.created| - |w.fired| <= |end.created| - |end.fired|
      && (Firings(end.created) == end.fired <==> Firings(w.created) == w.fired && Kept(w, steps))
    decreases |steps|
  {
    FiringsSize(w.created);
    if steps != [] {
      var n := Next(w, steps[0]);
      StepCreates(w, steps[0]);
      FiringsSize(n.created);
      if n.fired != w.fired {
        SameEnds(Firings(w.created), [FiringOf(steps[0].flight)], w.fired, [FiringOf(steps[0].flight)]);
      }
      KeptFromIff(n, steps[1..]);
      FiringsSize(AfterFrom(w, steps).created);
    }
  }

  /**
   Under orderly engines the runs that were created are those of the completed slots, in the same
   order, exactly when every creation was followed by a completion that the store accepted.
   */
  lemma AllCreatedCompleteIff(steps: seq<Step>)
    requires Orderly(START, steps)
    ensures Firings(After(steps).created) == After(steps).store.completed <==> Kept(START, steps)
  {
    OrderlyRecordIsTrue(steps);
    KeptFromIff(START, steps);
  }

  lemma {:induction false} FiredWereCreated(w: World, steps: seq<Step>, x: T.Firing)
    requires x in w.fired ==> x in Firings(w.created)
    ensures x in AfterFrom(w, steps).fired ==> x in Firings(AfterFrom(w, steps).created)
    decreases |steps|
  {
    if steps != [] {
      StepCreates(w, steps[0]);
      FiredWereCreated(Next(w, steps[0]), steps[1..], x);
    }
  }

  /** In every history under orderly engines, the run of every completed slot was created. */
  lemma CompletedWereCreated(steps: seq<Step>, x: T.Firing)
    requires Orderly(START, steps) && x in After(steps).store.completed
    ensures x in Firings(After(steps).created)
  {
    OrderlyRecordIsTrue(steps);
    FiredWereCreated(START, steps, x);
  }

  // ---- when they do not

  /** A claim that outlived its lease ends the lease of a later claim of the same name, and completes its slot. */
  lemma StaleClaimCompletesAnother(w: World, f: Flight, hash: nat)
    requires Inv(w) && f in w.flights && Accepted(w.store, f) && w.holder[f.id].slot != f.slot
    ensures
      var n, h := FinishStep(w, f, Completed(hash)), w.holder[f.id];
      && n.store.completed == w.store.completed + [T.Firing(f.id, h.slot, f.owner)]
      && n.fired == w.fired + [FiringOf(f)]
      && !Accepted(n.store, h)
  {
    assert LeaseFits(w, f.id);
  }

  function RowAt(next: int, lease: Option<T.Lease>): T.Row { T.Row(T.Trigger(60_000, next, false, 0, true), true, lease) }

  /** The one row's slot and lease, the time, and what is under way. */
  ghost predicate Shows(w: World, next: int, lease: Option<T.Lease>, clock: int) {
    w.store.rows == map["t" := RowAt(next, lease)] && w.clock == clock
  }

  lemma TickAlone(w: World, owner: T.OwnerName, next: int, lease: Option<T.Lease>, clock: int)
    requires Shows(w, next, lease, clock) && next <= clock && (lease.Some? ==> lease.value.expiresAt <= clock)
    ensures
      var n := TickStep(w, owner);
      && Shows(n, next, Some(T.Lease(owner, clock + LEASE_MS)), clock)
      && n.flights == w.flights + {Flight("t", next, owner, clock)}
      && n.store.completed == w.store.completed && n.fired == w.fired && n.created == w.created
  {
    assert Due(w) == {"t"};
    assert (set id | id in Due(w) :: Claim(w, id, owner)) == {Claim(w, "t", owner)};
  }

  lemma FinishAlone(w: World, f: Flight, next: int, lease: T.Lease, clock: int)
    requires Shows(w, next, Some(lease), clock) && f in w.flights && f.id == "t" && f.owner == lease.owner
    ensures
      var n := FinishStep(w, f, Completed(0));
      && Shows(n, next + 60_000, None, clock) && n.flights == w.flights - {f}
      && n.store.completed == w.store.completed + [T.Firing("t", next, f.owner)]
      && n.fired == w.fired + [FiringOf(f)] && n.created == w.created + [Creation(f, Some(clock))]
  {}

  lemma {:induction false} OneMore(w: World, steps: seq<Step>, s: Step)
    ensures AfterFrom(w, steps + [s]) == Next(AfterFrom(w, steps), s)
    decreases |steps|
  {
    if steps == [] {
      assert [] + [s] == [s] && [s][1..] == [];
      assert AfterFrom(w, [s]) == AfterFrom(Next(w, s), []);
    } else {
      assert (steps + [s])[0] == steps[0] && (steps + [s])[1..] == steps[1..] + [s];
      OneMore(Next(w, steps[0]), steps[1..], s);
    }
  }

  lemma AfterNext(steps: seq<Step>, k: nat)
    requires k < |steps|
    ensures After(steps[..k + 1]) == Next(After(steps[..k]), steps[k])
  {
    assert steps[..k + 1] == steps[..k] + [steps[k]];
    OneMore(START, steps[..k], steps[k]);
  }

  /** Two claims of the first slot, the second under the same name or another: the first takes longer than its lease. */
  lemma ClaimedTwice(steps: seq<Step>, other: T.OwnerName, f: Flight, g: Flight)
    requires |steps| >= 4 && f == Flight("t", 0, "e", 0) && g == Flight("t", 0, other, 30_000)
    requires steps[0] == Ensure("t", T.Trigger(60_000, 0, false, 0, true)) && steps[1] == Tick("e")
    requires steps[2] == Wait(30_000) && steps[3] == Tick(other)
    ensures
      var w := After(steps[..4]);
      && Shows(w, 0, Some(T.Lease(other, 60_000)), 30_000) && w.flights == {f, g}
      && w.store.completed == [] && w.fired == [] && w.created == []
  {
    AfterNext(steps, 0);
    AfterNext(steps, 1);
    AfterNext(steps, 2);
    AfterNext(steps, 3);
    assert After(steps[..0]) == START;
    var w := After(steps[..1]);
    assert Shows(w, 0, None, 0);
    TickAlone(w, "e", 0, None, 0);
    TickAlone(After(steps[..3]), other, 0, Some(T.Lease("e", 30_000)), 30_000);
  }

  /** Both claims create the run of the first slot, and both report back. */
  lemma BothCreate(steps: seq<Step>, other: T.OwnerName, f: Flight, g: Flight)
    requires |steps| == 6 && f == Flight("t", 0, "e", 0) && g == Flight("t", 0, other, 30_000) && other != "e"
    requires steps[0] == Ensure("t", T.Trigger(60_000, 0, false, 0, true)) && steps[1] == Tick("e")
    requires steps[2] == Wait(30_000) && steps[3] == Tick(other)
    requires steps[4] == Finish(g, Completed(0)) && steps[5] == Finish(f, Completed(0))
    ensures After(steps).store.completed == [T.Firing("t", 0, other)] && CreatedTwice(After(steps), "t", 0)
  {
    ClaimedTwice(steps, other, f, g);
    AfterNext(steps, 4);
    FinishAlone(After(steps[..4]), g, 0, T.Lease(other, 60_000), 30_000);
    AfterNext(steps, 5);
    assert steps[..6] == steps;
    var w := After(steps);
    assert w.created == [Creation(g, Some(30_000)), Creation(f, Some(30_000))];
    assert OfSlot(w.created[0], "t", 0) && OfSlot(w.created[1], "t", 0);
  }

  /** The first claim comes back when a third has been made, and takes the second slot for completed. */
  lemma ThirdSlotTaken(steps: seq<Step>, f: Flight, g: Flight, h: Flight)
    requires |steps| >= 8 && f == Flight("t", 0, "e", 0) && g == Flight("t", 0, "e", 30_000)
    requires h == Flight("t", 60_000, "e", 60_000)
    requires steps[0] == Ensure("t", T.Trigger(60_000, 0, false, 0, true)) && steps[1] == Tick("e")
    requires steps[2] == Wait(30_000) && steps[3] == Tick("e") && steps[4] == Finish(g, Completed(0))
    requires steps[5] == Wait(30_000) && steps[6] == Tick("e") && steps[7] == Finish(f, Completed(0))
    ensures
      var w := After(steps[..8]);
      && Shows(w, 120_000, None, 60_000) && w.flights == {h}
      && w.store.completed == [T.Firing("t", 0, "e"), T.Firing("t", 60_000, "e")]
      && w.created == [Creation(g, Some(30_000)), Creation(f, Some(60_000))]
  {
    ClaimedTwice(steps, "e", f, g);
    AfterNext(steps, 4);
    FinishAlone(After(steps[..4]), g, 0, T.Lease("e", 60_000), 30_000);
    AfterNext(steps, 5);
    AfterNext(steps, 6);
    TickAlone(After(steps[..6]), "e", 60_000, None, 60_000);
    AfterNext(steps, 7);
    FinishAlone(After(steps[..7]), f, 60_000, T.Lease("e", 90_000), 60_000);
  }

  /** Whatever the third claim meets after that, the store does not listen to it. */
  lemma NobodyListens(w: World, h: Flight)
    requires Shows(w, 120_000, None, 60_000) && h.id == "t" && h in w.flights
    ensures FinishStep(w, h, NotCreated) == w.(flights := w.flights - {h})
  {
    assert !Accepted(w.store, h);
  }

  /**
   Such a history in full: the second slot is recorded as completed, its run was never created, and
   no claim of it is under way or due any more.
   */
  lemma SlotIsLost(steps: seq<Step>, f: Flight, g: Flight, h: Flight)
    requires |steps| == 9 && f == Flight("t", 0, "e", 0) && g == Flight("t", 0, "e", 30_000)
    requires h == Flight("t", 60_000, "e", 60_000)
    requires steps[0] == Ensure("t", T.Trigger(60_000, 0, false, 0, true)) && steps[1] == Tick("e")
    requires steps[2] == Wait(30_000) && steps[3] == Tick("e") && steps[4] == Finish(g, Completed(0))
    requires steps[5] == Wait(30_000) && steps[6] == Tick("e") && steps[7] == Finish(f, Completed(0))
    requires steps[8] == Finish(h, NotCreated)
    ensures
      var w := After(steps);
      && w.store.completed == [T.Firing("t", 0, "e"), T.Firing("t", 60_000, "e")]
      && (forall c | c in w.created :: c.flight.slot == 0)
      && w.flights == {} && Shows(w, 120_000, None, 60_000)
  {
    ThirdSlotTaken(steps, f, g, h);
    AfterNext(steps, 8);
    NobodyListens(After(steps[..8]), h);
    assert steps[..9] == steps;
  }
}
