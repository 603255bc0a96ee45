/**
 Plugin generations: installing, switching and removing versions of plugins while runs keep
 using the versions they first saw. Lifecycle operations exclude each other, but each awaits
 in its middle, and there runs may still be pinned and tools invoked. One step stands for one
 stretch of code without an await; the manager may also crash and restart at any point.
 */
module PluginLifecycle {
  import opened Wrappers

  type Id = string
  type Version = string
  type RunId(==, !new) = nat

  /** One version of one plugin. */
  datatype Coord = Coord(id: Id, version: Version)

  datatype InstallState = Staging | ActivationPending | Verified

  datatype Entry = Entry(state: InstallState, enabled: bool, rollbackPossible: bool)

  datatype Activation =
    Activation(active: Option<Version>, previous: Option<Version>, resume: Option<Version>, generation: nat)

  /** The durable lock file. */
  datatype Lock = Lock(plugins: map<Coord, Entry>, activations: map<Id, Activation>, debts: map<Coord, nat>)

  const NO_ACTIVATION := Activation(None, None, None, 0)

  function Current(l: Lock, id: Id): Activation { if id in l.activations then l.activations[id] else NO_ACTIVATION }

  predicate Ready(l: Lock, c: Coord) { c in l.plugins && l.plugins[c].state.Verified? }

  // ---- the lock's operations, each `None` where the source throws

  function Except(o: Option<Version>, v: Version): Option<Version> { if o == Some(v) then None else o }

  /** A new activation record; exactly its active version is marked enabled. */
  function Switched(l: Lock, id: Id, a: Activation): Lock {
    l.(plugins := map c | c in l.plugins ::
         if c.id == id then l.plugins[c].(enabled := a.active == Some(c.version)) else l.plugins[c],
       activations := l.activations[id := a])
  }

  function LockInstall(l: Lock, c: Coord): Option<Lock> {
    if c in l.plugins then None else Some(l.(plugins := l.plugins[c := Entry(Staging, false, true)]))
  }

  function LockVerify(l: Lock, c: Coord, state: InstallState, rollbackPossible: bool): Option<Lock> {
    if c !in l.plugins then None
    else Some(l.(plugins := l.plugins[c := l.plugins[c].(state := state, rollbackPossible := rollbackPossible)]))
  }

  function LockActivate(l: Lock, c: Coord): Option<Lock> {
    if c !in l.plugins || l.plugins[c].state.Staging? || c in l.debts then None else
    var was := Current(l, c.id);
    var previous := if was.active.Some? && was.active != Some(c.version) then was.active else Except(was.previous, c.version);
    var verified := l.(plugins := l.plugins[c := l.plugins[c].(state := Verified)]);
    Some(Switched(verified, c.id, Activation(Some(c.version), previous, None, was.generation + 1)))
  }

  function LockDisable(l: Lock, id: Id): Option<Lock> {
    var was := Current(l, id);
    if was.active.None? || Coord(id, was.active.value) !in l.plugins then None else
    Some(Switched(l, id, Activation(None, Except(was.previous, was.active.value), was.active, was.generation + 1)))
  }

  function LockRollback(l: Lock, id: Id): Option<Lock> {
    var was := Current(l, id);
    if was.previous.None? then None else
    var target := Coord(id, was.previous.value);
    if target !in l.plugins || l.plugins[target].state.Staging? || target in l.debts then None else
    var from := if was.active.Some? then was.active else was.resume;
    Some(Switched(l, id, Activation(was.previous, from, None, was.generation + 1)))
  }

  function WithDebts(l: Lock, failed: set<Coord>, attempts: nat): Lock {
    l.(debts := l.debts + map c | c in failed :: (if c in l.debts then l.debts[c] else 0) + attempts)
  }

  /** The lock without these packages: activations forget them as previous or resumable version. */
  function Purged(l: Lock, gone: set<Coord>): Lock {
    l.(plugins := l.plugins - gone,
       activations := map id | id in l.activations ::
         var a := l.activations[id];
         a.(previous := if a.previous.Some? && Coord(id, a.previous.value) in gone then None else a.previous,
            resume := if a.resume.Some? && Coord(id, a.resume.value) in gone then None else a.resume))
  }

  function LockUninstall(l: Lock, c: Coord): Option<Lock> {
    if c !in l.plugins then Some(l)
    else if Current(l, c.id).active == Some(c.version) || c in l.debts then None
    else Some(Purged(l, {c}))
  }

  // ---- the manager

  type Pins = map<RunId, map<Id, Version>>

  /** The lifecycle operation under way, if any, at the await where it stands. */
  datatype Work =
    | Idle
    | Installing(candidate: Coord)
    | Enabling(target: Coord)
    | Upgrading(candidate: Coord)
    | Activating(candidate: Coord)
    | Discarding(candidate: Coord)
    | RollingBack(id: Id)
    | Disabling(targets: set<Coord>)
    | Uninstalling(target: Coord)
    | Releasing(run: RunId, todo: set<Coord>, current: Option<Coord>, failed: set<Coord>)
    | Retrying(target: Coord)

  datatype Manager = Manager(
    lock: Lock, active: map<Id, Version>, previous: map<Id, Version>, resume: map<Id, Version>,
    pins: Pins, generations: set<Coord>, work: Work)

  const ATTEMPTS: nat := 3

  predicate IsActive(m: Manager, c: Coord) { c.id in m.active && m.active[c.id] == c.version }

  predicate PinnedBy(pins: Pins, run: RunId, c: Coord) { run in pins && c.id in pins[run] && pins[run][c.id] == c.version }

  predicate Pinned(pins: Pins, c: Coord) { exists run :: run in pins && PinnedBy(pins, run, c) }

  predicate PinnedElsewhere(pins: Pins, run: RunId, c: Coord) {
    exists other :: other in pins && other != run && PinnedBy(pins, other, c)
  }

  function Get(m: map<Id, Version>, id: Id): Option<Version> { if id in m then Some(m[id]) else None }

  function Put(m: map<Id, Version>, id: Id, v: Option<Version>): map<Id, Version> {
    if v.Some? then m[id := v.value] else m - {id}
  }

  /** `#applyActivation`, after the lock was switched. */
  function Applied(m: Manager, lock: Lock, id: Id): Manager {
    var a := Current(lock, id);
    m.(lock := lock, active := Put(m.active, id, a.active), previous := Put(m.previous, id, a.previous),
       resume := Put(m.resume, id, a.resume))
  }

  /** `#pinRun`: the first look fixes the versions a run sees. */
  function PinRunStep(m: Manager, run: RunId): Manager {
    if run in m.pins then m else m.(pins := m.pins[run := m.active])
  }

  function Resolve(m: Manager, run: Option<RunId>, id: Id): Option<Version> {
    var seen := if run.Some? && run.value in m.pins then m.pins[run.value] else m.active;
    if id in seen then Some(seen[id]) else None
  }

  /** A tool call: pins the run, resolves the version, and starts that generation's worker. */
  function InvokeStep(m: Manager, run: Option<RunId>, id: Id): Manager {
    var n := if run.Some? then PinRunStep(m, run.value) else m;
    var v := Resolve(n, run, id);
    if v.Some? && Coord(id, v.value) in n.lock.plugins
    then n.(generations := n.generations + {Coord(id, v.value)}) else n
  }

  function InstallStep(m: Manager, c: Coord): Manager {
    var lock := LockInstall(m.lock, c);
    if lock.None? then m else m.(lock := lock.value, work := Installing(c))
  }

  function FinishInstallStep(m: Manager, c: Coord, ok: bool): Manager {
    var lock := if ok then LockVerify(m.lock, c, Verified, true) else LockUninstall(m.lock, c);
    m.(lock := if lock.Some? then lock.value else m.lock, work := Idle)
  }

  /** What `enable` demands before it verifies anything. */
  predicate MayEnable(m: Manager, c: Coord) {
    var a := Current(m.lock, c.id);
    && !(a.active.Some? && a.active != Some(c.version))
    && !(a.active.None? && a.resume.Some? && a.resume != Some(c.version))
    && Ready(m.lock, c) && c !in m.lock.debts
  }

  /** `enable` from the verification on; `ok` says whether that and the registration of tools succeed. */
  function EnableStep(m: Manager, c: Coord, ok: bool): Manager {
    if !MayEnable(m, c) || !ok || Current(m.lock, c.id).active == Some(c.version) then m
    else
      var lock := LockActivate(m.lock, c);
      if lock.None? then m else Applied(m, lock.value, c.id)
  }

  /** `enable` of a package for which no verification is recorded awaits one first. */
  function VerifyFirstStep(m: Manager, c: Coord): Manager { if MayEnable(m, c) then m.(work := Enabling(c)) else m }

  function FinishEnableStep(m: Manager, c: Coord, ok: bool): Manager { EnableStep(m, c, ok).(work := Idle) }

  function UpgradeStep(m: Manager, c: Coord): Manager {
    if c.id !in m.active || m.active[c.id] == c.version then m
    else if Coord(c.id, m.active[c.id]) !in m.lock.plugins then m
    else
      var lock := LockInstall(m.lock, c);
      if lock.None? then m else m.(lock := lock.value, work := Upgrading(c))
  }

  /** Migration and verification of the candidate end, with the verdict whether a rollback stays possible. */
  function FinishVerifyStep(m: Manager, c: Coord, ok: bool, rollbackPossible: bool): Manager {
    var lock := LockVerify(m.lock, c, ActivationPending, rollbackPossible);
    if ok && lock.Some? then m.(lock := lock.value, work := Activating(c)) else m.(work := Discarding(c))
  }

  function FinishUpgradeStep(m: Manager, c: Coord, ok: bool): Manager {
    var lock := LockActivate(m.lock, c);
    if ok && lock.Some? then Applied(m, lock.value, c.id).(work := Idle) else m.(work := Discarding(c))
  }

  function FinishDiscardStep(m: Manager, c: Coord): Manager {
    var lock := LockUninstall(m.lock, c);
    if IsActive(m, c) || lock.None? then m.(work := Idle)
    else m.(lock := lock.value, generations := m.generations - {c}, work := Idle)
  }

  function RollbackStep(m: Manager, id: Id): Manager {
    var a := Current(m.lock, id);
    if a.previous.None? then m else
    var current := if a.active.Some? then a.active else a.resume;
    var target := Coord(id, a.previous.value);
    if current.Some? && Coord(id, current.value) !in m.lock.plugins then m
    else if current.Some? && !m.lock.plugins[Coord(id, current.value)].rollbackPossible then m
    else if !Ready(m.lock, target) || target in m.lock.debts then m
    else m.(work := RollingBack(id))
  }

  function FinishRollbackStep(m: Manager, id: Id, ok: bool): Manager {
    var lock := LockRollback(m.lock, id);
    if ok && lock.Some? then Applied(m, lock.value, id).(work := Idle) else m.(work := Idle)
  }

  /** `disable`: after the switch, every generation of the plugin that no run is pinned to is to be stopped. */
  function DisableStep(m: Manager, id: Id, expected: Option<Version>): Manager {
    if expected.Some? && (id !in m.active || m.active[id] != expected.value) then m else
    var lock := LockDisable(m.lock, id);
    if lock.None? then m
    else Applied(m, lock.value, id).(work := Disabling(set c | c in m.generations && c.id == id && !Pinned(m.pins, c)))
  }

  function FinishDisableStep(m: Manager, targets: set<Coord>, failed: set<Coord>): Manager {
    var cleared := m.lock.(debts := m.lock.debts - (targets - failed));
    m.(lock := WithDebts(cleared, failed * targets, ATTEMPTS), work := Idle)
  }

  function UninstallStep(m: Manager, c: Coord): Manager {
    if IsActive(m, c) || Pinned(m.pins, c) then m else m.(work := Uninstalling(c))
  }

  function FinishUninstallStep(m: Manager, c: Coord, ok: bool): Manager {
    if !ok then m.(work := Idle) else
    var settled := m.(lock := m.lock.(debts := m.lock.debts - {c}), work := Idle);
    var lock := LockUninstall(settled.lock, c);
    if c !in m.lock.plugins || lock.None? then settled
    else
      settled.(lock := lock.value, generations := m.generations - {c},
        previous := if Get(m.previous, c.id) == Some(c.version) then m.previous - {c.id} else m.previous,
        resume := if Get(m.resume, c.id) == Some(c.version) then m.resume - {c.id} else m.resume)
  }

  function Coords(seen: map<Id, Version>): set<Coord> { set id | id in seen :: Coord(id, seen[id]) }

  function ReleaseStep(m: Manager, run: RunId): Manager {
    if run !in m.pins then m else m.(work := Releasing(run, Coords(m.pins[run]), None, {}))
  }

  /** One turn of `releaseRun`'s loop: a version still in use is skipped, any other is to be stopped. */
  function ReleaseNextStep(m: Manager, c: Coord): Manager
    requires m.work.Releasing?
  {
    var w := m.work;
    if w.current.Some? || c !in w.todo then m
    else
      m.(work := w.(todo := w.todo - {c},
                    current := if IsActive(m, c) || PinnedElsewhere(m.pins, w.run, c) then None else Some(c)))
  }

  function ReleaseStoppedStep(m: Manager, ok: bool): Manager
    requires m.work.Releasing?
  {
    var w := m.work;
    if w.current.None? then m
    else if ok then m.(lock := m.lock.(debts := m.lock.debts - {w.current.value}), work := w.(current := None))
    else m.(work := w.(current := None, failed := w.failed + {w.current.value}))
  }

  function FinishReleaseStep(m: Manager): Manager
    requires m.work.Releasing?
  {
    if m.work.current.Some? || m.work.todo != {} then m
    else m.(lock := WithDebts(m.lock, m.work.failed, ATTEMPTS), pins := m.pins - {m.work.run}, work := Idle)
  }

  /** A release goes on when a stop has ended, or ends when nothing is left to stop. */
  function ReleasingStep(m: Manager, ok: bool): Manager
    requires m.work.Releasing?
  {
    if m.work.current.Some? then ReleaseStoppedStep(m, ok) else FinishReleaseStep(m)
  }

  function RetryStep(m: Manager, c: Coord): Manager { if c in m.lock.debts then m.(work := Retrying(c)) else m }

  function FinishRetryStep(m: Manager, c: Coord, ok: bool): Manager {
    if ok then m.(lock := m.lock.(debts := m.lock.debts - {c}), work := Idle)
    else m.(lock := WithDebts(m.lock, {c}, ATTEMPTS), work := Idle)
  }

  /** A new manager over the lock a crash left behind. */
  function Restarted(m: Manager): Manager {
    var interrupted := set c | c in m.lock.plugins && !m.lock.plugins[c].state.Verified?;
    var lock := Purged(m.lock.(debts := map[]), interrupted);
    var a := lock.activations;
    Manager(lock,
            map id | id in a && a[id].active.Some? :: a[id].active.value,
            map id | id in a && a[id].previous.Some? :: a[id].previous.value,
            map id | id in a && a[id].resume.Some? :: a[id].resume.value,
            map[], {}, Idle)
  }

  // ---- steps

  /** An operation's request; it begins when no other is under way. */
  datatype Request =
    | ToInstall(c: Coord) | ToEnable(c: Coord, ok: bool) | ToVerify(c: Coord) | ToUpgrade(c: Coord) | ToRollback(id: Id)
    | ToDisable(id: Id, expected: Option<Version>) | ToUninstall(c: Coord) | ToRelease(run: RunId) | ToRetry(c: Coord)

  datatype Step =
    | Begin(request: Request)
    | Verdict(ok: bool, rollbackPossible: bool)
    | StopsDone(failed: set<Coord>)
    | Turn(c: Coord)
    | Pin(run: RunId)
    | Call(caller: Option<RunId>, plugin: Id)
    | Restart

  function Started(m: Manager, r: Request): Manager {
    match r
    case ToInstall(c) => InstallStep(m, c)
    case ToEnable(c, ok) => EnableStep(m, c, ok)
    case ToVerify(c) => VerifyFirstStep(m, c)
    case ToUpgrade(c) => UpgradeStep(m, c)
    case ToRollback(id) => RollbackStep(m, id)
    case ToDisable(id, expected) => DisableStep(m, id, expected)
    case ToUninstall(c) => UninstallStep(m, c)
    case ToRelease(run) => ReleaseStep(m, run)
    case ToRetry(c) => RetryStep(m, c)
  }

  /** The operation under way learns how what it awaited ended. */
  function Resumed(m: Manager, ok: bool, rollbackPossible: bool): Manager {
    match m.work
    case Idle => m
    case Installing(c) => FinishInstallStep(m, c, ok)
    case Enabling(c) => FinishEnableStep(m, c, ok)
    case Upgrading(c) => FinishVerifyStep(m, c, ok, rollbackPossible)
    case Activating(c) => FinishUpgradeStep(m, c, ok)
    case Discarding(c) => FinishDiscardStep(m, c)
    case RollingBack(id) => FinishRollbackStep(m, id, ok)
    case Disabling(_) => m
    case Uninstalling(c) => FinishUninstallStep(m, c, ok)
    case Releasing(_, _, _, _) => ReleasingStep(m, ok)
    case Retrying(c) => FinishRetryStep(m, c, ok)
  }

  function Next(m: Manager, s: Step): Manager {
    match s
    case Begin(r) => if m.work.Idle? then Started(m, r) else m
    case Verdict(ok, rollbackPossible) => Resumed(m, ok, rollbackPossible)
    case StopsDone(failed) => if m.work.Disabling? then FinishDisableStep(m, m.work.targets, failed) else m
    case Turn(c) => if m.work.Releasing? then ReleaseNextStep(m, c) else m
    case Pin(run) => PinRunStep(m, run)
    case Call(caller, plugin) => InvokeStep(m, caller, plugin)
    case Restart => Restarted(m)
  }

  function AfterFrom(m: Manager, steps: seq<Step>): Manager
    decreases |steps|
  {
    if steps == [] then m else AfterFrom(Next(m, steps[0]), steps[1..])
  }

  const FRESH := Manager(Lock(map[], map[], map[]), map[], map[], map[], map[], {}, Idle)

  function After(steps: seq<Step>): Manager { AfterFrom(FRESH, steps) }

  // ---- what always holds

  /** `validatePluginLock`: the condition under which every write of the lock file is accepted. */
  ghost predicate ValidActivation(l: Lock, id: Id, a: Activation) {
    && (a.active.Some? ==> Ready(l, Coord(id, a.active.value)))
    && (a.previous.Some? ==> Coord(id, a.previous.value) in l.plugins)
    && (a.resume.Some? ==> Ready(l, Coord(id, a.resume.value)))
    && (a.active.None? || a.resume.None?)
  }

  ghost predicate ValidLock(l: Lock) {
    && (forall id | id in l.activations :: ValidActivation(l, id, l.activations[id]))
    && (forall c | c in l.plugins :: l.plugins[c].enabled <==> Current(l, c.id).active == Some(c.version))
    && (forall c | c in l.debts :: c in l.plugins && l.debts[c] >= 1)
  }

  /** A previous version is verified and not the current one, so a rollback always changes the version. */
  ghost predicate PreviousIsSound(l: Lock, id: Id, a: Activation) {
    a.previous.Some? ==> a.previous != a.active && a.previous != a.resume && Ready(l, Coord(id, a.previous.value))
  }

  /** The maps in memory say what the lock file says. */
  ghost predicate Mirrors(m: Manager) {
    forall id ::
      && Get(m.active, id) == Current(m.lock, id).active
      && Get(m.previous, id) == Current(m.lock, id).previous
      && Get(m.resume, id) == Current(m.lock, id).resume
  }

  /** What may run, or owes a stop, is an installed and verified package. */
  ghost predicate InUseIsReady(m: Manager) {
    && (forall run: RunId, c | PinnedBy(m.pins, run, c) :: Ready(m.lock, c))
    && (forall c | c in m.generations :: Ready(m.lock, c))
    && (forall c | c in m.lock.debts :: Ready(m.lock, c))
  }

  /** A version that still owes a stop is in nobody's use. */
  ghost predicate DebtIsUnused(m: Manager) {
    forall c | c in m.lock.debts :: !IsActive(m, c) && !Pinned(m.pins, c)
  }

  /** What the operation under way is stopping, or has failed to stop. */
  function Doomed(w: Work): set<Coord> {
    match w
    case Discarding(c) => {c}
    case Disabling(targets) => targets
    case Uninstalling(c) => {c}
    case Releasing(_, _, current, failed) => failed + if current.Some? then {current.value} else {}
    case Retrying(c) => {c}
    case _ => {}
  }

  /** Nothing that is being stopped is in use, but by the run that is being released. */
  ghost predicate DoomedIsUnused(m: Manager) {
    forall c | c in Doomed(m.work) ::
      && !IsActive(m, c)
      && forall run: RunId | PinnedBy(m.pins, run, c) :: m.work.Releasing? && m.work.run == run
  }

  ghost predicate WorkFits(m: Manager) {
    match m.work
    case Installing(c) => c in m.lock.plugins && m.lock.plugins[c].state.Staging?
    case Upgrading(c) => c in m.lock.plugins && m.lock.plugins[c].state.Staging?
    case Activating(c) => c in m.lock.plugins && m.lock.plugins[c].state.ActivationPending?
    case Discarding(c) => c in m.lock.plugins && !m.lock.plugins[c].state.Verified?
    case Disabling(targets) => forall c | c in targets :: Ready(m.lock, c)
    case Releasing(run, todo, current, failed) =>
      && run in m.pins
      && todo <= Coords(m.pins[run])
      && (current.Some? ==> current.value in Coords(m.pins[run]))
      && failed <= Coords(m.pins[run])
    case Retrying(c) => c in m.lock.debts
    case _ => true
  }

  ghost predicate LockInv(l: Lock) {
    ValidLock(l) && forall id | id in l.activations :: PreviousIsSound(l, id, l.activations[id])
  }

  ghost predicate UseInv(m: Manager) { InUseIsReady(m) && DebtIsUnused(m) && DoomedIsUnused(m) && WorkFits(m) }

  ghost predicate Inv(m: Manager) { LockInv(m.lock) && Mirrors(m) && UseInv(m) }

  // ---- the lock's operations keep it valid

  /** No package that was ready is lost. */
  ghost predicate KeepsReady(a: Lock, b: Lock) { forall c | Ready(a, c) :: Ready(b, c) }

  lemma ActiveIsReady(l: Lock, c: Coord)
    requires LockInv(l)
    ensures Current(l, c.id).active == Some(c.version) ==> Ready(l, c)
  {
    if c.id in l.activations {
      assert ValidActivation(l, c.id, l.activations[c.id]) && PreviousIsSound(l, c.id, l.activations[c.id]);
    }
  }

  lemma InstallKeepsLock(l: Lock, c: Coord)
    requires LockInv(l) && LockInstall(l, c).Some?
    ensures LockInv(LockInstall(l, c).value) && KeepsReady(l, LockInstall(l, c).value)
  {
    var n := LockInstall(l, c).value;
    ActiveIsReady(l, c);
    forall id | id in n.activations
      ensures ValidActivation(n, id, n.activations[id]) && PreviousIsSound(n, id, n.activations[id])
    {
      assert ValidActivation(l, id, l.activations[id]) && PreviousIsSound(l, id, l.activations[id]);
    }
  }

  lemma VerifyKeepsLock(l: Lock, c: Coord, state: InstallState, rollbackPossible: bool)
    requires LockInv(l) && LockVerify(l, c, state, rollbackPossible).Some?
    requires !l.plugins[c].state.Verified? || state.Verified?
    ensures LockInv(LockVerify(l, c, state, rollbackPossible).value)
    ensures KeepsReady(l, LockVerify(l, c, state, rollbackPossible).value)
  {
    var n := LockVerify(l, c, state, rollbackPossible).value;
    forall id | id in n.activations
      ensures ValidActivation(n, id, n.activations[id]) && PreviousIsSound(n, id, n.activations[id])
    {
      assert ValidActivation(l, id, l.activations[id]) && PreviousIsSound(l, id, l.activations[id]);
    }
  }

  lemma SwitchKeepsActivation(l: Lock, id: Id, a: Activation, i: Id, b: Activation)
    requires ValidActivation(l, i, b) && PreviousIsSound(l, i, b)
    ensures ValidActivation(Switched(l, id, a), i, b) && PreviousIsSound(Switched(l, id, a), i, b)
  {}

  lemma SwitchKeepsLock(l: Lock, id: Id, a: Activation)
    requires LockInv(l) && ValidActivation(l, id, a) && PreviousIsSound(l, id, a)
    ensures LockInv(Switched(l, id, a)) && KeepsReady(l, Switched(l, id, a))
  {
    var n := Switched(l, id, a);
    forall i | i in n.activations
      ensures ValidActivation(n, i, n.activations[i]) && PreviousIsSound(n, i, n.activations[i])
    {
      if i in l.activations { assert ValidActivation(l, i, l.activations[i]) && PreviousIsSound(l, i, l.activations[i]); }
      SwitchKeepsActivation(l, id, a, i, n.activations[i]);
    }
  }

  lemma ActivateKeepsLock(l: Lock, c: Coord)
    requires LockInv(l) && LockActivate(l, c).Some?
    ensures LockInv(LockActivate(l, c).value) && KeepsReady(l, LockActivate(l, c).value)
  {
    var was, n := Current(l, c.id), LockActivate(l, c).value;
    VerifyKeepsLock(l, c, Verified, l.plugins[c].rollbackPossible);
    var verified := LockVerify(l, c, Verified, l.plugins[c].rollbackPossible).value;
    if c.id in l.activations { assert ValidActivation(l, c.id, was) && PreviousIsSound(l, c.id, was); }
    SwitchKeepsLock(verified, c.id, Current(n, c.id));
  }

  lemma DisableKeepsLock(l: Lock, id: Id)
    requires LockInv(l) && LockDisable(l, id).Some?
    ensures LockInv(LockDisable(l, id).value) && KeepsReady(l, LockDisable(l, id).value)
  {
    assert ValidActivation(l, id, l.activations[id]) && PreviousIsSound(l, id, l.activations[id]);
    SwitchKeepsLock(l, id, Current(LockDisable(l, id).value, id));
  }

  lemma RollbackKeepsLock(l: Lock, id: Id)
    requires LockInv(l) && LockRollback(l, id).Some?
    ensures LockInv(LockRollback(l, id).value) && KeepsReady(l, LockRollback(l, id).value)
  {
    assert ValidActivation(l, id, l.activations[id]) && PreviousIsSound(l, id, l.activations[id]);
    SwitchKeepsLock(l, id, Current(LockRollback(l, id).value, id));
  }

  lemma PurgeKeepsLock(l: Lock, gone: set<Coord>)
    requires LockInv(l) && forall c | c in gone :: Current(l, c.id).active != Some(c.version) && c !in l.debts
    ensures LockInv(Purged(l, gone))
    ensures forall c | Ready(l, c) && c !in gone :: Ready(Purged(l, gone), c)
  {
    var n := Purged(l, gone);
    forall id | id in n.activations
      ensures ValidActivation(n, id, n.activations[id]) && PreviousIsSound(n, id, n.activations[id])
    {
      assert ValidActivation(l, id, l.activations[id]) && PreviousIsSound(l, id, l.activations[id]);
    }
  }

  lemma DebtsKeepLock(l: Lock, cleared: set<Coord>, failed: set<Coord>)
    requires LockInv(l) && failed <= l.plugins.Keys
    ensures LockInv(WithDebts(l.(debts := l.debts - cleared), failed, ATTEMPTS))
  {
    var n := WithDebts(l.(debts := l.debts - cleared), failed, ATTEMPTS);
    forall id | id in n.activations
      ensures ValidActivation(n, id, n.activations[id]) && PreviousIsSound(n, id, n.activations[id])
    {
      assert ValidActivation(l, id, l.activations[id]) && PreviousIsSound(l, id, l.activations[id]);
    }
  }

  // ---- the manager's steps keep it sound

  lemma ActivesAreReady(m: Manager)
    requires LockInv(m.lock) && Mirrors(m)
    ensures forall c | IsActive(m, c) :: Ready(m.lock, c)
  {
    forall c | IsActive(m, c) ensures Ready(m.lock, c) {
      assert Get(m.active, c.id) == Some(c.version);
      ActiveIsReady(m.lock, c);
    }
  }

  lemma AppliedMirrors(m: Manager, lock: Lock, id: Id)
    requires Mirrors(m) && forall i | i != id :: Current(lock, i) == Current(m.lock, i)
    ensures Mirrors(Applied(m, lock, id))
    ensures forall c | IsActive(Applied(m, lock, id), c) :: IsActive(m, c) || Current(lock, id).active == Some(c.version)
    ensures forall c | IsActive(Applied(m, lock, id), c) && c.id == id :: Current(lock, id).active == Some(c.version)
  {
    forall i
      ensures Get(Applied(m, lock, id).active, i) == Current(lock, i).active
      ensures Get(Applied(m, lock, id).previous, i) == Current(lock, i).previous
      ensures Get(Applied(m, lock, id).resume, i) == Current(lock, i).resume
    {
      assert Get(m.active, i) == Current(m.lock, i).active && Get(m.previous, i) == Current(m.lock, i).previous;
    }
  }

  /** What a step must show about use, when runs and generations stay as they were. */
  lemma UseKept(m: Manager, n: Manager)
    requires UseInv(m) && KeepsReady(m.lock, n.lock) && n.pins == m.pins && n.generations <= m.generations
    requires n.lock.debts.Keys <= m.lock.debts.Keys
    requires forall c | c in n.lock.debts && IsActive(n, c) :: IsActive(m, c)
    requires DoomedIsUnused(n) && WorkFits(n)
    ensures UseInv(n)
  {}

  lemma MirrorsKept(m: Manager, n: Manager)
    requires Mirrors(m) && n.active == m.active && n.previous == m.previous && n.resume == m.resume
    requires n.lock.activations == m.lock.activations
    ensures Mirrors(n)
  {
    forall id
      ensures Get(n.active, id) == Current(n.lock, id).active
      ensures Get(n.previous, id) == Current(n.lock, id).previous
      ensures Get(n.resume, id) == Current(n.lock, id).resume
    {
      assert Get(m.active, id) == Current(m.lock, id).active;
    }
  }

  /** A newly pinned run uses only what is active. */
  lemma PinnedWereUsed(m: Manager, run: RunId)
    ensures forall r: RunId, c | PinnedBy(PinRunStep(m, run).pins, r, c) :: PinnedBy(m.pins, r, c) || IsActive(m, c)
    ensures forall c | Pinned(PinRunStep(m, run).pins, c) :: Pinned(m.pins, c) || IsActive(m, c)
  {
    var n := PinRunStep(m, run);
    forall c | Pinned(n.pins, c) ensures Pinned(m.pins, c) || IsActive(m, c) {
      var r :| r in n.pins && PinnedBy(n.pins, r, c);
    }
  }

  lemma PinKeepsInv(m: Manager, run: RunId)
    requires Inv(m)
    ensures Inv(PinRunStep(m, run))
  {
    var n := PinRunStep(m, run);
    ActivesAreReady(m);
    PinnedWereUsed(m, run);
    MirrorsKept(m, n);
    assert InUseIsReady(n);
    assert DebtIsUnused(n);
    assert WorkFits(n);
  }

  lemma CallKeepsInv(m: Manager, run: Option<RunId>, id: Id)
    requires Inv(m)
    ensures Inv(InvokeStep(m, run, id))
  {
    var n := if run.Some? then PinRunStep(m, run.value) else m;
    if run.Some? { PinKeepsInv(m, run.value); }
    var v := Resolve(n, run, id);
    if v.Some? {
      ActivesAreReady(n);
      var c := Coord(id, v.value);
      assert IsActive(n, c) || (run.Some? && PinnedBy(n.pins, run.value, c));
    }
  }

  lemma StagingKeepsInv(m: Manager, c: Coord, w: Work)
    requires Inv(m) && LockInstall(m.lock, c).Some? && (w == Installing(c) || w == Upgrading(c))
    ensures Inv(m.(lock := LockInstall(m.lock, c).value, work := w))
  {
    var n := m.(lock := LockInstall(m.lock, c).value, work := w);
    InstallKeepsLock(m.lock, c);
    MirrorsKept(m, n);
    UseKept(m, n);
  }

  lemma InstallKeepsInv(m: Manager, c: Coord)
    requires Inv(m) && m.work.Idle?
    ensures Inv(InstallStep(m, c))
  {
    if LockInstall(m.lock, c).Some? { StagingKeepsInv(m, c, Installing(c)); }
  }

  lemma UpgradeKeepsInv(m: Manager, c: Coord)
    requires Inv(m) && m.work.Idle?
    ensures Inv(UpgradeStep(m, c))
  {
    if LockInstall(m.lock, c).Some? { StagingKeepsInv(m, c, Upgrading(c)); }
  }

  /** An operation that only notes what it is about to do. */
  lemma WorkKeepsInv(m: Manager, w: Work)
    requires Inv(m) && DoomedIsUnused(m.(work := w)) && WorkFits(m.(work := w))
    ensures Inv(m.(work := w))
  {
    MirrorsKept(m, m.(work := w));
    UseKept(m, m.(work := w));
  }

  /** A switch of one plugin's activation: the lock first, then the maps in memory. */
  lemma SwitchKeepsInv(m: Manager, lock: Lock, id: Id, w: Work)
    requires Inv(m) && LockInv(lock) && KeepsReady(m.lock, lock) && lock.debts == m.lock.debts
    requires forall i | i != id :: Current(lock, i) == Current(m.lock, i)
    requires Current(lock, id).active.Some? ==> Coord(id, Current(lock, id).active.value) !in lock.debts
    requires var n := Applied(m, lock, id).(work := w); DoomedIsUnused(n) && WorkFits(n)
    ensures Inv(Applied(m, lock, id).(work := w))
  {
    AppliedMirrors(m, lock, id);
    UseKept(m, Applied(m, lock, id).(work := w));
  }

  lemma ActivateKeepsInv(m: Manager, c: Coord, w: Work)
    requires Inv(m) && LockActivate(m.lock, c).Some? && w.Idle?
    ensures Inv(Applied(m, LockActivate(m.lock, c).value, c.id).(work := w))
  {
    ActivateKeepsLock(m.lock, c);
    SwitchKeepsInv(m, LockActivate(m.lock, c).value, c.id, w);
  }

  lemma EnableKeepsInv(m: Manager, c: Coord, ok: bool)
    requires Inv(m) && m.work.Idle?
    ensures Inv(EnableStep(m, c, ok))
  {
    if LockActivate(m.lock, c).Some? {
      ActivateKeepsInv(m, c, Idle);
      assert Applied(m, LockActivate(m.lock, c).value, c.id).(work := Idle) == Applied(m, LockActivate(m.lock, c).value, c.id);
    }
  }

  lemma FinishEnableKeepsInv(m: Manager, c: Coord, ok: bool)
    requires Inv(m)
    ensures Inv(FinishEnableStep(m, c, ok))
  {
    WorkKeepsInv(m, Idle);
    EnableKeepsInv(m.(work := Idle), c, ok);
    assert FinishEnableStep(m, c, ok) == EnableStep(m.(work := Idle), c, ok);
  }

  /** A disabled plugin is off and resumes at the version it had. */
  lemma DisabledMeans(m: Manager, id: Id)
    requires Mirrors(m) && LockDisable(m.lock, id).Some?
    ensures
      var n := Applied(m, LockDisable(m.lock, id).value, id);
      id !in n.active && Get(n.resume, id) == Get(m.active, id)
  {
    assert Get(m.active, id) == Current(m.lock, id).active;
  }

  lemma DisableKeepsInv(m: Manager, id: Id, expected: Option<Version>)
    requires Inv(m) && m.work.Idle?
    ensures Inv(DisableStep(m, id, expected))
  {
    if LockDisable(m.lock, id).Some? {
      DisableKeepsLock(m.lock, id);
      AppliedMirrors(m, LockDisable(m.lock, id).value, id);
      if DisableStep(m, id, expected) != m {
        SwitchKeepsInv(m, LockDisable(m.lock, id).value, id, DisableStep(m, id, expected).work);
      }
    }
  }

  lemma NotingKeepsInv(m: Manager, r: Request)
    requires Inv(m) && m.work.Idle? && (r.ToVerify? || r.ToRollback? || r.ToUninstall? || r.ToRelease? || r.ToRetry?)
    ensures Inv(Started(m, r))
  {
    if Started(m, r) != m { WorkKeepsInv(m, Started(m, r).work); }
  }

  lemma StartKeepsInv(m: Manager, r: Request)
    requires Inv(m) && m.work.Idle?
    ensures Inv(Started(m, r))
  {
    match r
    case ToInstall(c) => InstallKeepsInv(m, c);
    case ToEnable(c, ok) => EnableKeepsInv(m, c, ok);
    case ToUpgrade(c) => UpgradeKeepsInv(m, c);
    case ToDisable(id, expected) => DisableKeepsInv(m, id, expected);
    case _ => NotingKeepsInv(m, r);
  }

  /** A candidate that is not verified yet is nowhere in the activations. */
  lemma CandidateIsUnreferenced(l: Lock, c: Coord)
    requires LockInv(l) && !Ready(l, c)
    ensures
      var a := Current(l, c.id);
      a.active != Some(c.version) && a.previous != Some(c.version) && a.resume != Some(c.version)
  {
    if c.id in l.activations {
      assert ValidActivation(l, c.id, l.activations[c.id]) && PreviousIsSound(l, c.id, l.activations[c.id]);
    }
  }

  /** Nobody uses a package that is not verified. */
  lemma UnreadyIsUnused(m: Manager, c: Coord)
    requires Inv(m) && !Ready(m.lock, c)
    ensures !IsActive(m, c) && c !in m.lock.debts && forall run: RunId :: !PinnedBy(m.pins, run, c)
  {
    ActivesAreReady(m);
  }

  lemma CandidateIsDoomed(m: Manager, c: Coord)
    requires Inv(m) && c in m.lock.plugins && !Ready(m.lock, c)
    ensures Inv(m.(work := Discarding(c)))
  {
    UnreadyIsUnused(m, c);
    MirrorsKept(m, m.(work := Discarding(c)));
    UseKept(m, m.(work := Discarding(c)));
  }

  lemma CandidateLeaves(m: Manager, c: Coord)
    requires Inv(m) && c in m.lock.plugins && !Ready(m.lock, c)
    ensures LockUninstall(m.lock, c) == Some(Purged(m.lock, {c}))
    ensures Inv(m.(lock := Purged(m.lock, {c}), work := Idle))
  {
    var n := m.(lock := Purged(m.lock, {c}), work := Idle);
    PurgeChangesNothingElse(m.lock, c);
    UnreadyIsUnused(m, c);
    PurgeKeepsLock(m.lock, {c});
    MirrorsKept(m, n);
    UseKept(m, n);
  }

  lemma PurgeChangesNothingElse(l: Lock, c: Coord)
    requires LockInv(l) && !Ready(l, c)
    ensures Purged(l, {c}).activations == l.activations && Current(l, c.id).active != Some(c.version)
  {
    CandidateIsUnreferenced(l, c);
  }

  lemma FinishInstallKeepsInv(m: Manager, c: Coord, ok: bool)
    requires Inv(m) && m.work == Installing(c)
    ensures Inv(FinishInstallStep(m, c, ok))
  {
    if ok {
      VerifyKeepsLock(m.lock, c, Verified, true);
      UseKept(m, FinishInstallStep(m, c, ok));
    } else {
      CandidateLeaves(m, c);
    }
  }

  lemma FinishVerifyKeepsInv(m: Manager, c: Coord, ok: bool, rollbackPossible: bool)
    requires Inv(m) && m.work == Upgrading(c)
    ensures Inv(FinishVerifyStep(m, c, ok, rollbackPossible))
  {
    var n := FinishVerifyStep(m, c, ok, rollbackPossible);
    if ok {
      VerifyKeepsLock(m.lock, c, ActivationPending, rollbackPossible);
      MirrorsKept(m, n);
      UseKept(m, n);
    } else {
      CandidateIsDoomed(m, c);
    }
  }

  lemma FinishUpgradeKeepsInv(m: Manager, c: Coord, ok: bool)
    requires Inv(m) && m.work == Activating(c)
    ensures Inv(FinishUpgradeStep(m, c, ok))
  {
    if ok && LockActivate(m.lock, c).Some? {
      ActivateKeepsInv(m, c, Idle);
    } else {
      CandidateIsDoomed(m, c);
    }
  }

  lemma FinishRollbackKeepsInv(m: Manager, id: Id, ok: bool)
    requires Inv(m) && m.work == RollingBack(id)
    ensures Inv(FinishRollbackStep(m, id, ok))
  {
    if ok && LockRollback(m.lock, id).Some? {
      RollbackKeepsLock(m.lock, id);
      SwitchKeepsInv(m, LockRollback(m.lock, id).value, id, Idle);
    } else {
      WorkKeepsInv(m, Idle);
    }
  }

  function Unpinned(pins: Pins, run: Option<RunId>): Pins { if run.Some? then pins - {run.value} else pins }

  lemma FewerPins(pins: Pins, run: Option<RunId>)
    ensures forall r: RunId, c | PinnedBy(Unpinned(pins, run), r, c) :: PinnedBy(pins, r, c) && run != Some(r)
    ensures forall c | Pinned(Unpinned(pins, run), c) ::
      Pinned(pins, c) && exists r: RunId :: PinnedBy(pins, r, c) && run != Some(r)
  {
    forall c | Pinned(Unpinned(pins, run), c)
      ensures Pinned(pins, c) && exists r: RunId :: PinnedBy(pins, r, c) && run != Some(r)
    {
      var r :| r in Unpinned(pins, run) && PinnedBy(Unpinned(pins, run), r, c);
      assert PinnedBy(pins, r, c);
    }
  }

  /** The state once debts are recorded and the released run, if any, has let go. */
  function Owing(m: Manager, cleared: set<Coord>, failed: set<Coord>, run: Option<RunId>): Manager {
    m.(lock := WithDebts(m.lock.(debts := m.lock.debts - cleared), failed, ATTEMPTS), pins := Unpinned(m.pins, run), work := Idle)
  }

  lemma OwingKeepsUse(m: Manager, cleared: set<Coord>, failed: set<Coord>, run: Option<RunId>)
    requires UseInv(m) && (forall c | c in failed :: Ready(m.lock, c) && !IsActive(m, c))
    requires forall c, r: RunId | c in failed && PinnedBy(m.pins, r, c) :: run == Some(r)
    ensures UseInv(Owing(m, cleared, failed, run))
  {
    FewerPins(m.pins, run);
    assert InUseIsReady(Owing(m, cleared, failed, run));
    assert DebtIsUnused(Owing(m, cleared, failed, run));
  }

  /** Debts of what could not be stopped, when nobody but the released run uses it. */
  lemma OwingKeepsInv(m: Manager, cleared: set<Coord>, failed: set<Coord>, run: Option<RunId>)
    requires Inv(m) && (forall c | c in failed :: Ready(m.lock, c) && !IsActive(m, c))
    requires forall c, r: RunId | c in failed && PinnedBy(m.pins, r, c) :: run == Some(r)
    ensures Inv(Owing(m, cleared, failed, run))
  {
    OwingKeepsUse(m, cleared, failed, run);
    DebtsKeepLock(m.lock, cleared, failed);
    MirrorsKept(m, Owing(m, cleared, failed, run));
  }

  lemma SettlingKeepsLock(l: Lock, cleared: set<Coord>)
    requires LockInv(l)
    ensures LockInv(l.(debts := l.debts - cleared))
  {
    var n := l.(debts := l.debts - cleared);
    DebtsKeepLock(l, cleared, {});
    assert n == WithDebts(n, {}, ATTEMPTS);
  }

  /** Debts that were settled, and a note of what comes next. */
  lemma SettlingKeepsInv(m: Manager, cleared: set<Coord>, w: Work)
    requires Inv(m) && DoomedIsUnused(m.(work := w)) && WorkFits(m.(work := w)) && !w.Retrying?
    ensures Inv(m.(lock := m.lock.(debts := m.lock.debts - cleared), work := w))
  {
    var n := m.(lock := m.lock.(debts := m.lock.debts - cleared), work := w);
    SettlingKeepsLock(m.lock, cleared);
    MirrorsKept(m, n);
    UseKept(m, n);
  }

  lemma FinishDisableKeepsInv(m: Manager, targets: set<Coord>, failed: set<Coord>)
    requires Inv(m) && m.work == Disabling(targets)
    ensures Inv(FinishDisableStep(m, targets, failed))
  {
    OwingKeepsInv(m, targets - failed, failed * targets, None);
  }

  lemma FinishRetryKeepsInv(m: Manager, c: Coord, ok: bool)
    requires Inv(m) && m.work == Retrying(c)
    ensures Inv(FinishRetryStep(m, c, ok))
  {
    if ok {
      SettlingKeepsInv(m, {c}, Idle);
    } else {
      assert m.lock.(debts := m.lock.debts - {}) == m.lock;
      OwingKeepsInv(m, {}, {c}, None);
    }
  }

  lemma TurnKeepsInv(m: Manager, c: Coord)
    requires Inv(m) && m.work.Releasing?
    ensures Inv(ReleaseNextStep(m, c))
  {
    if ReleaseNextStep(m, c) != m {
      forall x, r: RunId | x in Doomed(ReleaseNextStep(m, c).work) && PinnedBy(m.pins, r, x) ensures r == m.work.run {
        if x !in Doomed(m.work) { assert x == c && !PinnedElsewhere(m.pins, m.work.run, c); }
      }
      assert forall x | x in Doomed(ReleaseNextStep(m, c).work) :: x in Doomed(m.work) || !IsActive(m, x);
      WorkKeepsInv(m, ReleaseNextStep(m, c).work);
    }
  }

  lemma ReleaseStoppedKeepsInv(m: Manager, ok: bool)
    requires Inv(m) && m.work.Releasing?
    ensures Inv(ReleaseStoppedStep(m, ok))
  {
    var w := m.work;
    if w.current.Some? {
      assert Doomed(ReleaseStoppedStep(m, ok).work) <= Doomed(w);
      if ok {
        SettlingKeepsInv(m, {w.current.value}, w.(current := None));
      } else {
        WorkKeepsInv(m, w.(current := None, failed := w.failed + {w.current.value}));
      }
    }
  }

  lemma FinishReleaseKeepsInv(m: Manager)
    requires Inv(m) && m.work.Releasing?
    ensures Inv(FinishReleaseStep(m))
  {
    if FinishReleaseStep(m) != m {
      assert m.lock.(debts := m.lock.debts - {}) == m.lock;
      assert forall c | c in m.work.failed :: PinnedBy(m.pins, m.work.run, c);
      OwingKeepsInv(m, {}, m.work.failed, Some(m.work.run));
    }
  }

  lemma FinishUninstallKeepsInv(m: Manager, c: Coord, ok: bool)
    requires Inv(m) && m.work == Uninstalling(c)
    ensures Inv(FinishUninstallStep(m, c, ok))
  {
    if !ok {
      WorkKeepsInv(m, Idle);
    } else {
      SettlingKeepsInv(m, {c}, Idle);
      var settled := m.(lock := m.lock.(debts := m.lock.debts - {c}), work := Idle);
      if c in m.lock.plugins && LockUninstall(settled.lock, c).Some? {
        assert c in Doomed(m.work);
        RemovalKeepsInv(settled, FinishUninstallStep(m, c, ok), c);
      }
    }
  }

  lemma PurgedActivation(l: Lock, c: Coord, id: Id)
    requires LockInv(l)
    ensures
      var a, b := Current(l, id), Current(Purged(l, {c}), id);
      if id == c.id
      then b.active == a.active && b.previous == Except(a.previous, c.version) && b.resume == Except(a.resume, c.version)
      else b == a
  {}

  lemma RemovalMirrors(m: Manager, n: Manager, c: Coord)
    requires LockInv(m.lock) && Mirrors(m) && n.lock == Purged(m.lock, {c}) && n.active == m.active
    requires n.previous == if Get(m.previous, c.id) == Some(c.version) then m.previous - {c.id} else m.previous
    requires n.resume == if Get(m.resume, c.id) == Some(c.version) then m.resume - {c.id} else m.resume
    ensures Mirrors(n)
  {
    forall id
      ensures Get(n.active, id) == Current(n.lock, id).active
      ensures Get(n.previous, id) == Current(n.lock, id).previous
      ensures Get(n.resume, id) == Current(n.lock, id).resume
    {
      PurgedActivation(m.lock, c, id);
      assert Get(m.active, id) == Current(m.lock, id).active && Get(m.previous, id) == Current(m.lock, id).previous;
    }
  }

  lemma RemovalKeepsInv(m: Manager, n: Manager, c: Coord)
    requires Inv(m) && m.work.Idle? && LockUninstall(m.lock, c).Some? && c in m.lock.plugins
    requires !IsActive(m, c) && forall run: RunId :: !PinnedBy(m.pins, run, c)
    requires n == m.(lock := LockUninstall(m.lock, c).value, generations := m.generations - {c},
      previous := if Get(m.previous, c.id) == Some(c.version) then m.previous - {c.id} else m.previous,
      resume := if Get(m.resume, c.id) == Some(c.version) then m.resume - {c.id} else m.resume)
    ensures Inv(n)
  {
    PurgeKeepsLock(m.lock, {c});
    RemovalMirrors(m, n, c);
    assert InUseIsReady(n);
  }

  lemma RestartKeepsLock(l: Lock)
    requires LockInv(l)
    ensures LockInv(Purged(l.(debts := map[]), set c | c in l.plugins && !l.plugins[c].state.Verified?))
  {
    var interrupted := set c | c in l.plugins && !l.plugins[c].state.Verified?;
    var settled := l.(debts := map[]);
    assert settled == l.(debts := l.debts - l.debts.Keys);
    SettlingKeepsLock(l, l.debts.Keys);
    forall c | c in interrupted ensures Current(settled, c.id).active != Some(c.version) { ActiveIsReady(settled, c); }
    PurgeKeepsLock(settled, interrupted);
  }

  lemma RestartMirrors(m: Manager)
    ensures Mirrors(Restarted(m)) && UseInv(Restarted(m))
  {}

  lemma RestartKeepsInv(m: Manager)
    requires Inv(m)
    ensures Inv(Restarted(m))
  {
    RestartKeepsLock(m.lock);
    RestartMirrors(m);
  }

  /** An operation that had packages of its own to see to. */
  lemma CandidateKeepsInv(m: Manager, ok: bool, rollbackPossible: bool)
    requires Inv(m) && (m.work.Installing? || m.work.Upgrading? || m.work.Activating? || m.work.Discarding?)
    ensures Inv(Resumed(m, ok, rollbackPossible))
  {
    match m.work
    case Installing(c) => FinishInstallKeepsInv(m, c, ok);
    case Upgrading(c) => FinishVerifyKeepsInv(m, c, ok, rollbackPossible);
    case Activating(c) => FinishUpgradeKeepsInv(m, c, ok);
    case Discarding(c) => FinishDiscardKeepsInv(m, c);
  }

  lemma ResumeKeepsInv(m: Manager, ok: bool, rollbackPossible: bool)
    requires Inv(m)
    ensures Inv(Resumed(m, ok, rollbackPossible))
  {
    match m.work
    case Idle =>
    case Enabling(c) => FinishEnableKeepsInv(m, c, ok);
    case RollingBack(id) => FinishRollbackKeepsInv(m, id, ok);
    case Disabling(_) =>
    case Uninstalling(c) => FinishUninstallKeepsInv(m, c, ok);
    case Releasing(_, _, _, _) => ReleasingKeepsInv(m, ok);
    case Retrying(c) => FinishRetryKeepsInv(m, c, ok);
    case _ => CandidateKeepsInv(m, ok, rollbackPossible);
  }

  lemma ReleasingKeepsInv(m: Manager, ok: bool)
    requires Inv(m) && m.work.Releasing?
    ensures Inv(ReleasingStep(m, ok))
  {
    if m.work.current.Some? { ReleaseStoppedKeepsInv(m, ok); } else { FinishReleaseKeepsInv(m); }
  }

  lemma FinishDiscardKeepsInv(m: Manager, c: Coord)
    requires Inv(m) && m.work == Discarding(c)
    ensures Inv(FinishDiscardStep(m, c))
  {
    CandidateLeaves(m, c);
    UnreadyIsUnused(m, c);
    assert m.generations - {c} == m.generations;
  }

  lemma StepKeepsInv(m: Manager, s: Step)
    requires Inv(m)
    ensures Inv(Next(m, s))
  {
    match s
    case Begin(r) => if m.work.Idle? { StartKeepsInv(m, r); }
    case Verdict(ok, rollbackPossible) => ResumeKeepsInv(m, ok, rollbackPossible);
    case StopsDone(failed) => if m.work.Disabling? { FinishDisableKeepsInv(m, m.work.targets, failed); }
    case Turn(c) => if m.work.Releasing? { TurnKeepsInv(m, c); }
    case Pin(run) => PinKeepsInv(m, run);
    case Call(caller, plugin) => CallKeepsInv(m, caller, plugin);
    case Restart => RestartKeepsInv(m);
  }

  lemma {:induction false} StepsKeepInv(m: Manager, steps: seq<Step>)
    requires Inv(m)
    ensures Inv(AfterFrom(m, steps))
    decreases |steps|
  {
    if steps != [] {
      StepKeepsInv(m, steps[0]);
      StepsKeepInv(Next(m, steps[0]), steps[1..]);
    }
  }

  // ---- what this gives

  /** In every history, the lock file is one that `validatePluginLock` accepts, and memory agrees with it. */
  lemma LockIsAlwaysValid(steps: seq<Step>)
    ensures ValidLock(After(steps).lock) && Mirrors(After(steps))
  {
    StepsKeepInv(FRESH, steps);
  }

  /** In every history, what a run is pinned to, or what is active, is installed, verified and owes no cleanup. */
  lemma InUseIsInstalled(steps: seq<Step>, c: Coord)
    requires Pinned(After(steps).pins, c) || IsActive(After(steps), c)
    ensures Ready(After(steps).lock, c) && c !in After(steps).lock.debts
  {
    StepsKeepInv(FRESH, steps);
    ActivesAreReady(After(steps));
  }

  /** What the operation under way is stopping right now. */
  function Stopping(w: Work): set<Coord> {
    match w
    case Releasing(_, _, current, _) => if current.Some? then {current.value} else {}
    case _ => Doomed(w)
  }

  /**
   In every history, a generation is being stopped only while it is not active and no run is
   pinned to it, other than the run being released; so no call of another run can reach it.
   */
  lemma StopsSpareWhatIsUsed(steps: seq<Step>, c: Coord, caller: Option<RunId>)
    requires c in Stopping(After(steps).work)
    ensures
      var m := After(steps);
      && !IsActive(m, c)
      && (forall run: RunId | PinnedBy(m.pins, run, c) :: m.work.Releasing? && m.work.run == run)
      && (Resolve(m, caller, c.id) == Some(c.version) ==> m.work.Releasing? && caller == Some(m.work.run))
  {
    var m := After(steps);
    StepsKeepInv(FRESH, steps);
    assert c in Doomed(m.work);
    if Resolve(m, caller, c.id) == Some(c.version) {
      assert IsActive(m, c) || PinnedBy(m.pins, caller.value, c);
    }
  }

  /** Steps that end a run's pins: its own release, and a restart. */
  predicate EndsPins(s: Step, run: RunId) { s.Restart? || s == Begin(ToRelease(run)) }

  lemma StartKeepsPins(m: Manager, r: Request, run: RunId)
    requires run in m.pins && m.work.Idle? && r != ToRelease(run)
    ensures var n := Started(m, r); n.pins == m.pins && !(n.work.Releasing? && n.work.run == run)
  {}

  lemma SwitchesTouchNoPins(m: Manager, c: Coord, id: Id, ok: bool)
    ensures FinishEnableStep(m, c, ok).pins == m.pins && FinishEnableStep(m, c, ok).work.Idle?
    ensures FinishUpgradeStep(m, c, ok).pins == m.pins && !FinishUpgradeStep(m, c, ok).work.Releasing?
    ensures FinishRollbackStep(m, id, ok).pins == m.pins && FinishRollbackStep(m, id, ok).work.Idle?
  {}

  lemma RemovalsTouchNoPins(m: Manager, c: Coord, ok: bool)
    ensures FinishInstallStep(m, c, ok).pins == m.pins && FinishInstallStep(m, c, ok).work.Idle?
    ensures FinishDiscardStep(m, c).pins == m.pins && FinishDiscardStep(m, c).work.Idle?
    ensures FinishUninstallStep(m, c, ok).pins == m.pins && FinishUninstallStep(m, c, ok).work.Idle?
  {}

  /** Only a release that ends lets go of pins, and only of its own run's. */
  lemma ResumeTouchesPins(m: Manager, ok: bool, rollbackPossible: bool)
    requires !m.work.Releasing?
    ensures Resumed(m, ok, rollbackPossible).pins == m.pins && !Resumed(m, ok, rollbackPossible).work.Releasing?
  {
    match m.work
    case Installing(c) => RemovalsTouchNoPins(m, c, ok);
    case Enabling(c) => SwitchesTouchNoPins(m, c, c.id, ok);
    case Activating(c) => SwitchesTouchNoPins(m, c, c.id, ok);
    case Discarding(c) => RemovalsTouchNoPins(m, c, ok);
    case RollingBack(id) => SwitchesTouchNoPins(m, Coord(id, ""), id, ok);
    case Uninstalling(c) => RemovalsTouchNoPins(m, c, ok);
    case _ =>
  }

  lemma ResumeKeepsPins(m: Manager, ok: bool, rollbackPossible: bool, run: RunId)
    requires run in m.pins && !(m.work.Releasing? && m.work.run == run)
    ensures
      var n := Resumed(m, ok, rollbackPossible);
      run in n.pins && n.pins[run] == m.pins[run] && !(n.work.Releasing? && n.work.run == run)
  {
    if !m.work.Releasing? { ResumeTouchesPins(m, ok, rollbackPossible); }
  }

  lemma StepKeepsPins(m: Manager, s: Step, run: RunId)
    requires run in m.pins && !EndsPins(s, run) && !(m.work.Releasing? && m.work.run == run)
    ensures
      var n := Next(m, s);
      run in n.pins && n.pins[run] == m.pins[run] && !(n.work.Releasing? && n.work.run == run)
  {
    match s
    case Begin(r) => if m.work.Idle? { StartKeepsPins(m, r, run); }
    case Verdict(ok, rollbackPossible) => ResumeKeepsPins(m, ok, rollbackPossible, run);
    case _ =>
  }

  lemma {:induction false} PinsLast(m: Manager, steps: seq<Step>, run: RunId)
    requires Inv(m) && run in m.pins && !(m.work.Releasing? && m.work.run == run)
    requires forall i | 0 <= i < |steps| :: !EndsPins(steps[i], run)
    ensures
      var n := AfterFrom(m, steps);
      Inv(n) && run in n.pins && n.pins[run] == m.pins[run]
    decreases |steps|
  {
    if steps != [] {
      StepKeepsInv(m, steps[0]);
      StepKeepsPins(m, steps[0], run);
      PinsLast(Next(m, steps[0]), steps[1..], run);
    }
  }

  /**
   Whatever operations come later, a run that is neither released nor cut off by a restart
   keeps resolving every plugin to the version it was first pinned to, and that version stays installed.
   */
  lemma RunKeepsItsVersions(before: seq<Step>, later: seq<Step>, run: RunId, id: Id)
    requires run in After(before).pins && !(After(before).work.Releasing? && After(before).work.run == run)
    requires forall i | 0 <= i < |later| :: !EndsPins(later[i], run)
    ensures
      var m, n := After(before), AfterFrom(After(before), later);
      && Resolve(n, Some(run), id) == Resolve(m, Some(run), id)
      && (Resolve(n, Some(run), id).Some? ==> Ready(n.lock, Coord(id, Resolve(n, Some(run), id).value)))
  {
    var m, n := After(before), AfterFrom(After(before), later);
    StepsKeepInv(FRESH, before);
    PinsLast(m, later, run);
    if id in m.pins[run] { assert PinnedBy(n.pins, run, Coord(id, m.pins[run][id])); }
  }

  // ---- what one operation undoes

  /** Rolling back twice brings back the version, its predecessor and every package as they were. */
  lemma RollbackTwice(l: Lock, id: Id)
    requires LockInv(l) && Current(l, id).active.Some? && LockRollback(l, id).Some?
    requires Coord(id, Current(l, id).active.value) !in l.debts
    ensures
      var once := LockRollback(l, id).value;
      var twice := LockRollback(once, id);
      && Current(once, id).active == Current(l, id).previous
      && twice.Some? && twice.value.plugins == l.plugins
      && Current(twice.value, id) == Current(l, id).(generation := Current(l, id).generation + 2)
  {
    assert ValidActivation(l, id, Current(l, id));
  }

  /** A rollback after an upgrade brings the former version back and keeps the new one for another rollback. */
  lemma RollbackAfterUpgrade(l: Lock, c: Coord)
    requires LockInv(l) && LockActivate(l, c).Some? && Current(l, c.id).active.Some?
    requires Current(l, c.id).active != Some(c.version) && Coord(c.id, Current(l, c.id).active.value) !in l.debts
    ensures
      var upgraded := LockActivate(l, c).value;
      var back := LockRollback(upgraded, c.id);
      && Current(upgraded, c.id).active == Some(c.version)
      && back.Some? && Current(back.value, c.id).active == Current(l, c.id).active
      && Current(back.value, c.id).previous == Some(c.version)
  {
    assert ValidActivation(l, c.id, Current(l, c.id));
  }

  lemma DisabledKeepsReady(l: Lock, id: Id)
    requires LockInv(l) && LockDisable(l, id).Some?
    ensures
      var off, c := LockDisable(l, id).value, Coord(id, Current(l, id).active.value);
      && Ready(l, c) && l.plugins[c].enabled && Ready(off, c) && off.debts == l.debts
      && Current(off, id).active.None? && Current(off, id).previous == Current(l, id).previous
  {
    assert ValidActivation(l, id, Current(l, id)) && PreviousIsSound(l, id, Current(l, id));
  }

  /** Enabling again after a disable brings back the version, its predecessor and every package as they were. */
  lemma EnableAfterDisable(l: Lock, id: Id)
    requires LockInv(l) && LockDisable(l, id).Some?
    requires Coord(id, Current(l, id).active.value) !in l.debts
    ensures
      var off := LockDisable(l, id).value;
      var on := LockActivate(off, Coord(id, Current(l, id).active.value));
      && Current(off, id).active.None?
      && on.Some? && on.value.plugins == l.plugins
      && Current(on.value, id) == Current(l, id).(generation := Current(l, id).generation + 2)
  {
    DisabledKeepsReady(l, id);
    assert ValidActivation(l, id, Current(l, id)) && PreviousIsSound(l, id, Current(l, id));
  }

  lemma RestartLosesNothing(m: Manager, id: Id)
    requires Inv(m)
    ensures Current(Restarted(m).lock, id) == Current(m.lock, id)
  {
    if id in m.lock.activations {
      assert ValidActivation(m.lock, id, m.lock.activations[id]) && PreviousIsSound(m.lock, id, m.lock.activations[id]);
    }
  }

  /**
   A stretch that ends in debts writes the lock once for every debt it settles or records, and before
   the package of an uninstall goes. A crash between these writes leaves a valid lock, and the manager
   that starts over it is the one that would have started over the lock before.
   */
  lemma CrashBetweenDebts(steps: seq<Step>, cleared: set<Coord>, failed: set<Coord>)
    requires failed <= After(steps).lock.plugins.Keys
    ensures
      var m := After(steps);
      var left := WithDebts(m.lock.(debts := m.lock.debts - cleared), failed, ATTEMPTS);
      ValidLock(left) && Restarted(m.(lock := left)) == Restarted(m)
  {
    StepsKeepInv(FRESH, steps);
    DebtsKeepLock(After(steps).lock, cleared, failed);
  }

  /** A crash between steps loses no activation: the new manager serves the versions the lock names. */
  lemma RestartServesTheSame(steps: seq<Step>, id: Id)
    ensures
      var m := After(steps);
      && Get(Restarted(m).active, id) == Get(m.active, id)
      && Get(Restarted(m).previous, id) == Get(m.previous, id)
      && Get(Restarted(m).resume, id) == Get(m.resume, id)
      && (forall c | c in Restarted(m).lock.plugins :: Ready(Restarted(m).lock, c))
  {
    var m := After(steps);
    StepsKeepInv(FRESH, steps);
    RestartLosesNothing(m, id);
    RestartMirrors(m);
    assert Get(m.active, id) == Current(m.lock, id).active;
    assert Get(Restarted(m).active, id) == Current(Restarted(m).lock, id).active;
  }

  // ---- the manager's own methods

  /** One method per stretch between awaits; each keeps the invariant. */
  class ManagerPluginLifecycle {
    var lock: Lock
    var active: map<Id, Version>
    var previous: map<Id, Version>
    var resume: map<Id, Version>
    var runPins: Pins
    var generations: set<Coord>
    var work: Work

    ghost function State(): Manager
      reads this
    {
      Manager(lock, active, previous, resume, runPins, generations, work)
    }

    ghost predicate Valid()
      reads this
    {
      Inv(State())
    }

    /** `create`, over the lock file a former manager left behind. */
    constructor (left: Lock)
      requires LockInv(left)
      ensures Valid() && State() == Restarted(Manager(left, map[], map[], map[], map[], {}, Idle))
    {
      var start := Restarted(Manager(left, map[], map[], map[], map[], {}, Idle));
      lock, active, previous, resume := start.lock, start.active, start.previous, start.resume;
      runPins, generations, work := map[], {}, Idle;
      new;
      RestartKeepsLock(left);
      RestartMirrors(Manager(left, map[], map[], map[], map[], {}, Idle));
    }

    method PinRun(runId: RunId) returns (pins: map<Id, Version>)
      requires Valid()
      modifies this`runPins
      ensures Valid() && State() == PinRunStep(old(State()), runId)
      ensures runId in runPins && pins == runPins[runId]
    {
      PinKeepsInv(State(), runId);
      if runId !in runPins { runPins := runPins[runId := active]; }
      pins := runPins[runId];
    }

    /** A tool handler: resolves the version the run sees and starts its generation. */
    method Call(runId: Option<RunId>, id: Id) returns (used: Option<Coord>)
      requires Valid()
      modifies this`runPins, this`generations
      ensures Valid() && State() == InvokeStep(old(State()), runId, id)
      ensures used.Some? <==> Resolve(State(), runId, id).Some?
      ensures used.Some? ==> used.value == Coord(id, Resolve(State(), runId, id).value) && used.value in generations
    {
      CallKeepsInv(State(), runId, id);
      var seen := active;
      if runId.Some? { seen := PinRun(runId.value); }
      if id !in seen { return None; }
      var c := Coord(id, seen[id]);
      ActivesAreReady(State());
      assert IsActive(State(), c) || (runId.Some? && PinnedBy(runPins, runId.value, c));
      generations := generations + {c};
      used := Some(c);
    }

    method ApplyActivation(id: Id, switched: Lock)
      modifies this`lock, this`active, this`previous, this`resume
      ensures State() == Applied(old(State()), switched, id)
    {
      var a := Current(switched, id);
      lock := switched;
      if a.active.Some? { active := active[id := a.active.value]; } else { active := active - {id}; }
      if a.previous.Some? { previous := previous[id := a.previous.value]; } else { previous := previous - {id}; }
      if a.resume.Some? { resume := resume[id := a.resume.value]; } else { resume := resume - {id}; }
    }

    method Enable(id: Id, version: Version, ok: bool) returns (enabled: bool)
      requires Valid() && work.Idle?
      modifies this
      ensures Valid() && State() == EnableStep(old(State()), Coord(id, version), ok)
      ensures enabled ==> Get(active, id) == Some(version)
    {
      var c := Coord(id, version);
      EnableKeepsInv(State(), c, ok);
      var a := Current(lock, id);
      if a.active.Some? && a.active.value != version { return false; }
      if a.active.None? && a.resume.Some? && a.resume.value != version { return false; }
      if c !in lock.plugins || !lock.plugins[c].state.Verified? || c in lock.debts || !ok { return false; }
      if a.active == Some(version) {
        assert Get(active, id) == Current(lock, id).active;
        return true;
      }
      var switched := LockActivate(lock, c);
      if switched.None? { return false; }
      ApplyActivation(id, switched.value);
      enabled := true;
    }

    method FinishUpgrade(ok: bool) returns (upgraded: bool)
      requires Valid() && work.Activating?
      modifies this
      ensures Valid() && State() == FinishUpgradeStep(old(State()), old(work).candidate, ok)
      ensures upgraded <==> Get(active, old(work).candidate.id) == Some(old(work).candidate.version)
    {
      var c := work.candidate;
      FinishUpgradeKeepsInv(State(), c, ok);
      UnreadyIsUnused(State(), c);
      var switched := LockActivate(lock, c);
      if !ok || switched.None? {
        work := Discarding(c);
        return false;
      }
      ApplyActivation(c.id, switched.value);
      work := Idle;
      upgraded := true;
    }

    method FinishRollback(ok: bool) returns (rolledBack: bool)
      requires Valid() && work.RollingBack?
      modifies this
      ensures Valid() && State() == FinishRollbackStep(old(State()), old(work).id, ok)
    {
      FinishRollbackKeepsInv(State(), work.id, ok);
      var switched := LockRollback(lock, work.id);
      rolledBack := ok && switched.Some?;
      if rolledBack { ApplyActivation(work.id, switched.value); }
      work := Idle;
    }

    /** `disable` up to the stops: switches the lock and says what is to be stopped. */
    method Disable(id: Id, expected: Option<Version>) returns (disabled: bool)
      requires Valid() && work.Idle?
      modifies this
      ensures Valid() && State() == DisableStep(old(State()), id, expected)
      ensures disabled ==> id !in active && Get(resume, id) == Get(old(active), id)
      ensures disabled ==> forall c | c in Stopping(work) :: c.id == id && !Pinned(runPins, c)
    {
      DisableKeepsInv(State(), id, expected);
      ghost var next := DisableStep(State(), id, expected);
      if expected.Some? && (id !in active || active[id] != expected.value) { return false; }
      var switched := LockDisable(lock, id);
      if switched.None? { return false; }
      DisabledMeans(State(), id);
      SwitchOff(id, switched.value);
      assert State() == next;
      disabled := true;
    }

    method SwitchOff(id: Id, switched: Lock)
      modifies this`lock, this`active, this`previous, this`resume, this`work
      ensures work == Disabling(set c | c in generations && c.id == id && !Pinned(runPins, c))
      ensures State() == Applied(old(State()), switched, id).(work := work)
    {
      ApplyActivation(id, switched);
      work := Disabling(set c | c in generations && c.id == id && !Pinned(runPins, c));
    }

    method FinishDisable(failed: set<Coord>)
      requires Valid() && work.Disabling?
      modifies this
      ensures Valid() && State() == FinishDisableStep(old(State()), old(work).targets, failed)
    {
      FinishDisableKeepsInv(State(), work.targets, failed);
      lock := WithDebts(lock.(debts := lock.debts - (work.targets - failed)), failed * work.targets, ATTEMPTS);
      work := Idle;
    }

    method FinishUninstall(ok: bool) returns (removed: bool)
      requires Valid() && work.Uninstalling?
      modifies this
      ensures Valid() && State() == FinishUninstallStep(old(State()), old(work).target, ok)
      ensures removed ==> old(work).target in old(lock).plugins && old(work).target !in lock.plugins
    {
      var c := work.target;
      FinishUninstallKeepsInv(State(), c, ok);
      ghost var next := FinishUninstallStep(State(), c, ok);
      work := Idle;
      if !ok { return false; }
      var installed := c in lock.plugins;
      lock := lock.(debts := lock.debts - {c});
      var left := LockUninstall(lock, c);
      if !installed || left.None? { return false; }
      Forget(c, left.value);
      assert State() == next;
      removed := true;
    }

    /** The package is gone from the lock and from memory. */
    method Forget(c: Coord, left: Lock)
      modifies this`lock, this`generations, this`previous, this`resume
      ensures lock == left && generations == old(generations) - {c}
      ensures previous == if Get(old(previous), c.id) == Some(c.version) then old(previous) - {c.id} else old(previous)
      ensures resume == if Get(old(resume), c.id) == Some(c.version) then old(resume) - {c.id} else old(resume)
    {
      lock, generations := left, generations - {c};
      if Get(previous, c.id) == Some(c.version) { previous := previous - {c.id}; }
      if Get(resume, c.id) == Some(c.version) { resume := resume - {c.id}; }
    }

    /** One turn of `releaseRun`'s loop over the pins; `stop` says whether the version is to be stopped. */
    method ReleaseTurn(c: Coord) returns (stop: bool)
      requires Valid() && work.Releasing? && work.current.None? && c in work.todo
      modifies this`work
      ensures Valid() && State() == ReleaseNextStep(old(State()), c)
      ensures stop <==> !IsActive(State(), c) && forall run: RunId | PinnedBy(runPins, run, c) :: run == work.run
    {
      TurnKeepsInv(State(), c);
      var inUse := c.id in active && active[c.id] == c.version;
      var elsewhere := exists other :: other in runPins && other != work.run && PinnedBy(runPins, other, c);
      stop := !inUse && !elsewhere;
      work := work.(todo := work.todo - {c}, current := if stop then Some(c) else None);
    }

    method FinishRelease() returns (debts: set<Coord>)
      requires Valid() && work.Releasing? && work.current.None? && work.todo == {}
      modifies this
      ensures Valid() && State() == FinishReleaseStep(old(State()))
      ensures old(work).run !in runPins && forall c | c in debts :: c in lock.debts
    {
      FinishReleaseKeepsInv(State());
      debts := work.failed;
      lock := WithDebts(lock, debts, ATTEMPTS);
      runPins := runPins - {work.run};
      work := Idle;
    }
  }
}
