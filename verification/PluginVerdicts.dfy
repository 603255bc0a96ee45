/**
 What the verdicts on a plugin package decide: no package counts as verified without one in its favour,
 and one against it leaves everything as it was before the operation.
 */
module PluginVerdicts {
  import opened Wrappers
  import opened PluginLifecycle

  lemma {:induction false} AfterOneMore(m: Manager, steps: seq<Step>, s: Step)
    ensures AfterFrom(m, steps + [s]) == Next(AfterFrom(m, steps), s)
    decreases |steps|
  {
    if steps == [] {
      assert [s][1..] == [];
      assert steps + [s] == [s];
    } else {
      assert (steps + [s])[1..] == steps[1..] + [s];
      AfterOneMore(Next(m, steps[0]), steps[1..], s);
    }
  }

  lemma OneMore(steps: seq<Step>, s: Step)
    ensures After(steps + [s]) == Next(After(steps), s) && Inv(After(steps)) && Inv(After(steps + [s]))
  {
    hide Inv, Next, AfterFrom;
    AfterOneMore(FRESH, steps, s);
    FreshIsSound();
    StepsKeepInv(FRESH, steps);
    StepsKeepInv(FRESH, steps + [s]);
  }

  lemma FreshIsSound()
    ensures Inv(FRESH)
  {}

  // ---- verified means that a verdict said so

  /** The package is installed and past its staging. */
  predicate PastStaging(l: Lock, c: Coord) { c in l.plugins && !l.plugins[c].state.Staging? }

  /** After `k` steps a verdict in the package's favour comes while it is installed or upgraded to. */
  predicate Passes(steps: seq<Step>, k: nat, c: Coord) {
    && k < |steps| && steps[k].Verdict? && steps[k].ok
    && (After(steps[..k]).work == Installing(c) || After(steps[..k]).work == Upgrading(c))
  }

  /** No package is past its staging that was not before. */
  ghost predicate NonePasses(a: Lock, b: Lock) { forall c | PastStaging(b, c) :: PastStaging(a, c) }

  lemma InstallPassesNone(l: Lock, c: Coord)
    ensures LockInstall(l, c).Some? ==> NonePasses(l, LockInstall(l, c).value)
  {}

  lemma UninstallPassesNone(l: Lock, c: Coord)
    ensures LockUninstall(l, c).Some? ==> NonePasses(l, LockUninstall(l, c).value)
  {}

  lemma ActivatePassesNone(l: Lock, c: Coord)
    ensures LockActivate(l, c).Some? ==> NonePasses(l, LockActivate(l, c).value)
  {}

  lemma DisablePassesNone(l: Lock, id: Id)
    ensures LockDisable(l, id).Some? ==> NonePasses(l, LockDisable(l, id).value)
  {}

  lemma RollbackPassesNone(l: Lock, id: Id)
    ensures LockRollback(l, id).Some? ==> NonePasses(l, LockRollback(l, id).value)
  {}

  lemma VerifyPassesOne(l: Lock, c: Coord, state: InstallState, rollbackPossible: bool)
    requires LockVerify(l, c, state, rollbackPossible).Some?
    ensures forall d | d != c && PastStaging(LockVerify(l, c, state, rollbackPossible).value, d) :: PastStaging(l, d)
  {}

  lemma BeginPassesNone(m: Manager, r: Request)
    ensures NonePasses(m.lock, Started(m, r).lock)
  {
    hide LockInstall, LockActivate, LockDisable, NonePasses;
    SamePassesNone(m.lock, m.lock);
    match r
    case ToInstall(c) => InstallPassesNone(m.lock, c);
    case ToUpgrade(c) => InstallPassesNone(m.lock, c);
    case ToEnable(c, ok) => ActivatePassesNone(m.lock, c);
    case ToDisable(id, expected) => DisablePassesNone(m.lock, id);
    case _ =>
  }

  lemma SamePassesNone(a: Lock, b: Lock)
    requires a.plugins == b.plugins
    ensures NonePasses(a, b)
  {}

  /** A switch, a removal, or a change of debts. */
  lemma OtherVerdictsPassNone(m: Manager, ok: bool, rollbackPossible: bool)
    requires !m.work.Installing? && !m.work.Upgrading?
    ensures NonePasses(m.lock, Resumed(m, ok, rollbackPossible).lock)
  {
    hide LockActivate, LockUninstall, LockRollback, NonePasses, FinishUninstallStep, ReleasingStep, FinishRetryStep;
    SamePassesNone(m.lock, m.lock);
    match m.work
    case Enabling(c) => ActivatePassesNone(m.lock, c);
    case Activating(c) => ActivatePassesNone(m.lock, c);
    case Discarding(c) => UninstallPassesNone(m.lock, c);
    case RollingBack(id) => RollbackPassesNone(m.lock, id);
    case Uninstalling(c) => UninstallingPassesNone(m, c, ok);
    case Releasing(_, _, _, _) => SamePassesNone(m.lock, Resumed(m, ok, rollbackPossible).lock) by { ReleasingKeepsPlugins(m, ok); }
    case Retrying(c) => SamePassesNone(m.lock, Resumed(m, ok, rollbackPossible).lock) by { RetryKeepsPlugins(m, c, ok); }
    case _ =>
  }

  lemma UninstallingPassesNone(m: Manager, c: Coord, ok: bool)
    ensures NonePasses(m.lock, FinishUninstallStep(m, c, ok).lock)
  {
    UninstallPassesNone(m.lock.(debts := m.lock.debts - {c}), c);
  }

  lemma ReleasingKeepsPlugins(m: Manager, ok: bool)
    requires m.work.Releasing?
    ensures ReleasingStep(m, ok).lock.plugins == m.lock.plugins
  {
    hide IsActive, PinnedElsewhere;
  }

  lemma RetryKeepsPlugins(m: Manager, c: Coord, ok: bool)
    ensures FinishRetryStep(m, c, ok).lock.plugins == m.lock.plugins
  {}

  lemma VerdictPasses(m: Manager, ok: bool, rollbackPossible: bool, c: Coord)
    requires PastStaging(Resumed(m, ok, rollbackPossible).lock, c) && !PastStaging(m.lock, c)
    ensures ok && (m.work == Installing(c) || m.work == Upgrading(c))
  {
    hide FinishInstallStep, FinishEnableStep, FinishVerifyStep, FinishUpgradeStep, FinishDiscardStep, FinishRollbackStep,
         FinishUninstallStep, ReleasingStep, FinishRetryStep;
    match m.work
    case Installing(d) => InstallVerdictPasses(m, d, ok, c);
    case Upgrading(d) => UpgradeVerdictPasses(m, d, ok, rollbackPossible, c);
    case _ => OtherVerdictsPassNone(m, ok, rollbackPossible);
  }

  lemma InstallVerdictPasses(m: Manager, d: Coord, ok: bool, c: Coord)
    requires PastStaging(FinishInstallStep(m, d, ok).lock, c) && !PastStaging(m.lock, c)
    ensures ok && c == d
  {
    hide LockVerify, LockUninstall;
    UninstallPassesNone(m.lock, d);
    if ok && LockVerify(m.lock, d, Verified, true).Some? { VerifyPassesOne(m.lock, d, Verified, true); }
  }

  lemma UpgradeVerdictPasses(m: Manager, d: Coord, ok: bool, rollbackPossible: bool, c: Coord)
    requires PastStaging(FinishVerifyStep(m, d, ok, rollbackPossible).lock, c) && !PastStaging(m.lock, c)
    ensures ok && c == d
  {
    hide LockVerify;
    if LockVerify(m.lock, d, ActivationPending, rollbackPossible).Some? {
      VerifyPassesOne(m.lock, d, ActivationPending, rollbackPossible);
    }
  }

  /** Only such a verdict takes a package past its staging. */
  lemma PassedNow(m: Manager, s: Step, c: Coord)
    requires PastStaging(Next(m, s).lock, c) && !PastStaging(m.lock, c)
    ensures s.Verdict? && s.ok && (m.work == Installing(c) || m.work == Upgrading(c))
  {
    hide Started, Resumed;
    match s
    case Begin(r) => BeginPassesNone(m, r);
    case Verdict(ok, rollbackPossible) => VerdictPasses(m, ok, rollbackPossible, c);
    case _ => OtherStepsPassNone(m, s);
  }

  lemma OtherStepsPassNone(m: Manager, s: Step)
    requires !s.Begin? && !s.Verdict?
    ensures NonePasses(m.lock, Next(m, s).lock)
  {}

  /** From step `k + 1` on, the package has been installed and past its staging. */
  ghost predicate PastSince(steps: seq<Step>, k: nat, c: Coord) {
    k < |steps| && forall j: nat | k < j <= |steps| :: PastStaging(After(steps[..j]).lock, c)
  }

  lemma PastSinceGrows(steps: seq<Step>, s: Step, k: nat, c: Coord)
    requires (PastSince(steps, k, c) || k == |steps|) && PastStaging(After(steps + [s]).lock, c)
    ensures PastSince(steps + [s], k, c)
  {
    hide After, PastStaging;
    var all := steps + [s];
    forall j: nat | k < j <= |all| ensures PastStaging(After(all[..j]).lock, c) {
      if j == |all| { assert all[..j] == all; } else { assert all[..j] == steps[..j]; }
    }
  }

  lemma PassesGrows(steps: seq<Step>, s: Step, k: nat, c: Coord)
    requires Passes(steps, k, c)
    ensures Passes(steps + [s], k, c)
  {
    hide After;
    assert (steps + [s])[..k] == steps[..k];
  }

  /**
   In every history, a package that counts as verified owes it to a verdict in its favour, given while it was
   being installed or upgraded to, and has been installed ever since.
   */
  lemma {:induction false} ReadyWasVerified(steps: seq<Step>, c: Coord) returns (k: nat)
    requires PastStaging(After(steps).lock, c)
    ensures Passes(steps, k, c) && PastSince(steps, k, c)
    decreases |steps|
  {
    hide PastStaging, Next, AfterFrom;
    k := 0;
    if steps == [] {
      NothingIsInstalled(steps, c);
    } else {
      var before, last := steps[..|steps| - 1], steps[|steps| - 1];
      assert steps == before + [last];
      OneMore(before, last);
      if PastStaging(After(before).lock, c) {
        k := ReadyWasVerified(before, c);
        PassesGrows(before, last, k, c);
      } else {
        k := |before|;
        PassedNow(After(before), last, c);
        assert steps[..k] == before;
      }
      PastSinceGrows(before, last, k, c);
    }
  }

  lemma NothingIsInstalled(steps: seq<Step>, c: Coord)
    requires steps == []
    ensures !PastStaging(After(steps).lock, c)
  {}

  /** So does whatever is active, or a run is pinned to. */
  lemma InUseWasVerified(steps: seq<Step>, c: Coord) returns (k: nat)
    requires IsActive(After(steps), c) || Pinned(After(steps).pins, c)
    ensures Passes(steps, k, c) && PastSince(steps, k, c)
  {
    hide After, Passes, PastSince;
    InUseIsInstalled(steps, c);
    k := ReadyWasVerified(steps, c);
  }

  // ---- a verdict against a package

  /** All but the package stays as it was: what is installed, what is active, what came before, and who is pinned. */
  predicate Spares(m: Manager, n: Manager, c: Coord) {
    && n.lock.plugins == m.lock.plugins - {c} && n.lock.activations == m.lock.activations && n.lock.debts == m.lock.debts
    && n.active == m.active && n.previous == m.previous && n.resume == m.resume && n.pins == m.pins
  }

  lemma DiscardSpares(m: Manager, c: Coord)
    requires Inv(m) && m.work == Discarding(c)
    ensures FinishDiscardStep(m, c).work == Idle && Spares(m, FinishDiscardStep(m, c), c) && c !in FinishDiscardStep(m, c).generations
  {
    UnreadyIsUnused(m, c);
    CandidateLeaves(m, c);
    PurgeChangesNothingElse(m.lock, c);
  }

  /**
   An upgrade whose migration or verification fails, or whose activation does, leaves the former version
   active; the new package is to be discarded, and then nothing of it is left.
   */
  lemma FailedUpgradeIsDiscarded(steps: seq<Step>, c: Coord, rollbackPossible: bool, ok: bool)
    requires After(steps).work == Upgrading(c) || After(steps).work == Activating(c)
    ensures
      var m, n := After(steps), After(steps + [Verdict(false, rollbackPossible)]);
      var left := After(steps + [Verdict(false, rollbackPossible)] + [Verdict(ok, rollbackPossible)]);
      && n == m.(work := Discarding(c))
      && left.work == Idle && c !in left.lock.plugins && c !in left.generations && Spares(m, left, c)
  {
    hide Inv, AfterFrom, FinishDiscardStep;
    var no := Verdict(false, rollbackPossible);
    OneMore(steps, no);
    OneMore(steps + [no], Verdict(ok, rollbackPossible));
    DiscardSpares(After(steps + [no]), c);
  }

  /** An installation that is not verified leaves nothing. */
  lemma FailedInstallIsRemoved(steps: seq<Step>, c: Coord, rollbackPossible: bool)
    requires After(steps).work == Installing(c)
    ensures
      var m, n := After(steps), After(steps + [Verdict(false, rollbackPossible)]);
      n.work == Idle && c !in n.lock.plugins && Spares(m, n, c)
  {
    OneMore(steps, Verdict(false, rollbackPossible));
    CandidateLeaves(After(steps), c);
    PurgeChangesNothingElse(After(steps).lock, c);
  }

  // ---- a verdict in its favour

  /** An installed package is verified, and not active. */
  lemma InstalledIsReady(steps: seq<Step>, c: Coord, rollbackPossible: bool)
    requires After(steps).work == Installing(c)
    ensures
      var m, n := After(steps), After(steps + [Verdict(true, rollbackPossible)]);
      && n.work == Idle && Ready(n.lock, c) && !IsActive(n, c)
      && n.lock.plugins == m.lock.plugins[c := Entry(Verified, false, true)]
      && n.lock.activations == m.lock.activations && n.active == m.active && n.pins == m.pins
  {
    OneMore(steps, Verdict(true, rollbackPossible));
    UnreadyIsUnused(After(steps), c);
    assert !After(steps).lock.plugins[c].enabled by { CandidateIsUnreferenced(After(steps).lock, c); }
    assert After(steps).lock.plugins[c].state.Staging?;
  }

  lemma UpgradePending(m: Manager, c: Coord, rollbackPossible: bool)
    requires Inv(m) && m.work == Upgrading(c)
    ensures
      var n := Next(m, Verdict(true, rollbackPossible));
      && n.work == Activating(c) && n.active == m.active && n.previous == m.previous && n.pins == m.pins
      && n.lock.activations == m.lock.activations
      && c in n.lock.plugins && n.lock.plugins[c].rollbackPossible == rollbackPossible
  {}

  lemma UpgradeActivates(m: Manager, c: Coord, rollbackPossible: bool)
    requires Inv(m) && m.work == Activating(c)
    ensures
      var n := Next(m, Verdict(true, rollbackPossible));
      && n.work == Idle && IsActive(n, c) && Ready(n.lock, c) && n.pins == m.pins
      && n.lock.plugins[c].rollbackPossible == m.lock.plugins[c].rollbackPossible
      && Get(n.resume, c.id) == None
      && (c.id in m.active ==> Get(n.previous, c.id) == Some(m.active[c.id]))
      && forall id | id != c.id :: Get(n.active, id) == Get(m.active, id) && Get(n.previous, id) == Get(m.previous, id)
  {
    hide InUseIsReady, DebtIsUnused, DoomedIsUnused;
    UnreadyIsUnused(m, c);
    assert Get(m.active, c.id) == Current(m.lock, c.id).active;
    assert LockActivate(m.lock, c).Some?;
  }

  /**
   An upgrade whose migration and verification pass makes the new version active and keeps the former one to
   roll back to, with the migration's word on whether it may; runs keep what they are pinned to.
   */
  lemma PassedUpgradeIsActive(steps: seq<Step>, c: Coord, rollbackPossible: bool, again: bool)
    requires After(steps).work == Upgrading(c)
    ensures
      var m, n := After(steps), After(steps + [Verdict(true, rollbackPossible)] + [Verdict(true, again)]);
      && n.work == Idle && IsActive(n, c) && Ready(n.lock, c) && n.pins == m.pins
      && n.lock.plugins[c].rollbackPossible == rollbackPossible
      && (c.id in m.active ==> Get(n.previous, c.id) == Some(m.active[c.id]))
      && forall id | id != c.id :: Get(n.active, id) == Get(m.active, id)
  {
    hide After, Next, Inv;
    var first := Verdict(true, rollbackPossible);
    OneMore(steps, first);
    OneMore(steps + [first], Verdict(true, again));
    UpgradePending(After(steps), c, rollbackPossible);
    UpgradeActivates(After(steps + [first]), c, again);
  }

  // ---- rolling back

  /** A current version, active or only disabled, whose migration can be undone; there may be none. */
  predicate MayUndo(m: Manager, id: Id) {
    var current := if id in m.active then Get(m.active, id) else Get(m.resume, id);
    current.Some? ==>
      Coord(id, current.value) in m.lock.plugins && m.lock.plugins[Coord(id, current.value)].rollbackPossible
  }

  /**
   A rollback begins exactly when there is a former version to go to, verified and without a debt, and the
   current one's migration can be undone. Until its verdict it changes nothing.
   */
  lemma RollbackBeginsIff(steps: seq<Step>, id: Id)
    requires After(steps).work.Idle?
    ensures
      var m, n := After(steps), After(steps + [Begin(ToRollback(id))]);
      var begins := id in m.previous && MayUndo(m, id)
                    && Ready(m.lock, Coord(id, m.previous[id])) && Coord(id, m.previous[id]) !in m.lock.debts;
      n == if begins then m.(work := RollingBack(id)) else m
  {
    var m := After(steps);
    OneMore(steps, Begin(ToRollback(id)));
    assert Get(m.active, id) == Current(m.lock, id).active && Get(m.previous, id) == Current(m.lock, id).previous;
    assert Get(m.resume, id) == Current(m.lock, id).resume;
  }

  /** A rollback target that is not verified again stays where it is. */
  lemma FailedRollbackChangesNothing(steps: seq<Step>, id: Id, rollbackPossible: bool)
    requires After(steps).work == RollingBack(id)
    ensures After(steps + [Verdict(false, rollbackPossible)]) == After(steps).(work := Idle)
  {
    OneMore(steps, Verdict(false, rollbackPossible));
  }

  /** While a rollback awaits its verdict, there is a version to go to, and it owes no stop. */
  predicate RollsBackToClean(m: Manager) {
    m.work.RollingBack? ==> m.work.id in m.previous && Coord(m.work.id, m.previous[m.work.id]) !in m.lock.debts
  }

  lemma BeginKeepsClean(m: Manager, r: Request)
    requires Inv(m) && m.work.Idle?
    ensures RollsBackToClean(Started(m, r))
  {
    hide InstallStep, EnableStep, DisableStep, UpgradeStep;
    match r
    case ToInstall(c) => OthersDoNotRollBack(m, r);
    case ToEnable(c, ok) => OthersDoNotRollBack(m, r);
    case ToUpgrade(c) => OthersDoNotRollBack(m, r);
    case ToDisable(id, expected) => OthersDoNotRollBack(m, r);
    case ToRollback(id) => assert Get(m.previous, id) == Current(m.lock, id).previous;
    case _ =>
  }

  lemma OthersDoNotRollBack(m: Manager, r: Request)
    requires m.work.Idle? && !r.ToRollback?
    ensures !Started(m, r).work.RollingBack?
  {}

  lemma SwitchesEnd(m: Manager, c: Coord, id: Id, ok: bool, rollbackPossible: bool)
    ensures FinishInstallStep(m, c, ok).work == Idle && FinishEnableStep(m, c, ok).work == Idle
    ensures !FinishVerifyStep(m, c, ok, rollbackPossible).work.RollingBack?
    ensures !FinishUpgradeStep(m, c, ok).work.RollingBack? && FinishRollbackStep(m, id, ok).work == Idle
  {
    hide LockVerify, LockUninstall, LockActivate, LockRollback, EnableStep, Current;
  }

  lemma RemovalsEnd(m: Manager, c: Coord, ok: bool)
    ensures FinishDiscardStep(m, c).work == Idle && FinishUninstallStep(m, c, ok).work == Idle
    ensures FinishRetryStep(m, c, ok).work == Idle && (m.work.Releasing? ==> !ReleasingStep(m, ok).work.RollingBack?)
  {
    hide LockUninstall, WithDebts, IsActive;
  }

  lemma VerdictsDoNotRollBack(m: Manager, ok: bool, rollbackPossible: bool)
    ensures !Resumed(m, ok, rollbackPossible).work.RollingBack?
  {
    hide FinishInstallStep, FinishEnableStep, FinishVerifyStep, FinishUpgradeStep, FinishDiscardStep, FinishRollbackStep,
         FinishUninstallStep, ReleasingStep, FinishRetryStep;
    match m.work
    case Installing(c) => SwitchesEnd(m, c, c.id, ok, rollbackPossible);
    case Enabling(c) => SwitchesEnd(m, c, c.id, ok, rollbackPossible);
    case Upgrading(c) => SwitchesEnd(m, c, c.id, ok, rollbackPossible);
    case Activating(c) => SwitchesEnd(m, c, c.id, ok, rollbackPossible);
    case RollingBack(id) => SwitchesEnd(m, Coord(id, ""), id, ok, rollbackPossible);
    case Discarding(c) => RemovalsEnd(m, c, ok);
    case Uninstalling(c) => RemovalsEnd(m, c, ok);
    case Releasing(_, _, _, _) => RemovalsEnd(m, Coord("", ""), ok);
    case Retrying(c) => RemovalsEnd(m, c, ok);
    case _ =>
  }

  lemma StepKeepsClean(m: Manager, s: Step)
    requires Inv(m) && RollsBackToClean(m)
    ensures RollsBackToClean(Next(m, s))
  {
    hide Started, Resumed, Restarted;
    match s
    case Begin(r) => if m.work.Idle? { BeginKeepsClean(m, r); }
    case Verdict(ok, rollbackPossible) => VerdictsDoNotRollBack(m, ok, rollbackPossible);
    case Restart => RestartedIsIdle(m);
    case _ =>
  }

  lemma RestartedIsIdle(m: Manager)
    ensures Restarted(m).work == Idle
  {}

  lemma {:induction false} CleanReachable(steps: seq<Step>)
    ensures RollsBackToClean(After(steps))
    decreases |steps|
  {
    hide Next, Inv;
    if steps != [] {
      var before, last := steps[..|steps| - 1], steps[|steps| - 1];
      assert steps == before + [last];
      OneMore(before, last);
      CleanReachable(before);
      StepKeepsClean(After(before), last);
    }
  }

  lemma RollbackMeans(m: Manager, id: Id)
    requires Inv(m) && m.work == RollingBack(id) && RollsBackToClean(m)
    ensures
      var n := FinishRollbackStep(m, id, true);
      && n.work == Idle && n.pins == m.pins && id in m.previous
      && Get(n.active, id) == Get(m.previous, id)
      && Get(n.previous, id) == (if id in m.active then Get(m.active, id) else Get(m.resume, id))
      && Get(n.resume, id) == None && forall i | i != id :: Get(n.active, i) == Get(m.active, i)
  {
    assert Get(m.active, id) == Current(m.lock, id).active && Get(m.previous, id) == Current(m.lock, id).previous;
    assert Get(m.resume, id) == Current(m.lock, id).resume;
    assert PreviousIsSound(m.lock, id, m.lock.activations[id]);
  }

  /** One that is becomes active, and the version it replaces is what can be rolled back to next. */
  lemma PassedRollbackIsActive(steps: seq<Step>, id: Id, rollbackPossible: bool)
    requires After(steps).work == RollingBack(id)
    ensures
      var m, n := After(steps), After(steps + [Verdict(true, rollbackPossible)]);
      && n.work == Idle && n.pins == m.pins && id in m.previous
      && Get(n.active, id) == Get(m.previous, id)
      && Get(n.previous, id) == (if id in m.active then Get(m.active, id) else Get(m.resume, id))
      && Get(n.resume, id) == None && forall i | i != id :: Get(n.active, i) == Get(m.active, i)
  {
    hide After, Inv, RollsBackToClean;
    OneMore(steps, Verdict(true, rollbackPossible));
    CleanReachable(steps);
    RollbackMeans(After(steps), id);
  }

  // ---- the other operations, as they end

  /** A package may be enabled when it is verified and owes no stop, and no other version is active or waits to resume. */
  predicate Enableable(m: Manager, c: Coord) {
    && Ready(m.lock, c) && c !in m.lock.debts
    && (c.id in m.active ==> m.active[c.id] == c.version)
    && (c.id in m.resume ==> m.resume[c.id] == c.version)
  }

  lemma MayEnableIff(m: Manager, c: Coord)
    requires Inv(m)
    ensures MayEnable(m, c) <==> Enableable(m, c)
  {
    assert Get(m.active, c.id) == Current(m.lock, c.id).active && Get(m.resume, c.id) == Current(m.lock, c.id).resume;
    if c.id in m.lock.activations { assert ValidActivation(m.lock, c.id, m.lock.activations[c.id]); }
  }

  lemma EnableMeans(m: Manager, c: Coord, ok: bool)
    requires Inv(m)
    ensures
      var n := EnableStep(m, c, ok);
      && n.work == m.work && n.pins == m.pins && n.generations == m.generations && n.lock.debts == m.lock.debts
      && (ok && Enableable(m, c) ==> IsActive(n, c) && Get(n.resume, c.id) == None)
      && (!(ok && Enableable(m, c)) ==> n == m)
      && forall id | id != c.id :: Get(n.active, id) == Get(m.active, id)
  {
    hide Enableable;
    MayEnableIff(m, c);
    if MayEnable(m, c) { EnableableIsActiveAfter(m, c); }
  }

  lemma EnableableIsActiveAfter(m: Manager, c: Coord)
    requires Inv(m) && MayEnable(m, c)
    ensures IsActive(EnableStep(m, c, true), c) && Get(EnableStep(m, c, true).resume, c.id) == None
  {}

  /** Enabling makes the package active exactly when it may be enabled and its registration succeeds, and else does nothing. */
  lemma EnabledIff(steps: seq<Step>, c: Coord, ok: bool)
    requires After(steps).work.Idle?
    ensures
      var m, n := After(steps), After(steps + [Begin(ToEnable(c, ok))]);
      && n.work == Idle && n.pins == m.pins
      && (ok && Enableable(m, c) ==> IsActive(n, c)) && (!(ok && Enableable(m, c)) ==> n == m)
      && forall id | id != c.id :: Get(n.active, id) == Get(m.active, id)
  {
    hide Enableable, EnableStep, Inv;
    OneMore(steps, Begin(ToEnable(c, ok)));
    EnableMeans(After(steps), c, ok);
  }

  /** A retried stop settles its debt, or costs three attempts more. */
  lemma RetrySettlesDebt(steps: seq<Step>, c: Coord, ok: bool, rollbackPossible: bool)
    requires After(steps).work == Retrying(c)
    ensures
      var m, n := After(steps), After(steps + [Verdict(ok, rollbackPossible)]);
      && n.work == Idle && c in m.lock.debts && n.lock.plugins == m.lock.plugins && n.active == m.active && n.pins == m.pins
      && (if ok then n.lock.debts == m.lock.debts - {c} else n.lock.debts == m.lock.debts[c := m.lock.debts[c] + 3])
  {
    hide After, Inv;
    OneMore(steps, Verdict(ok, rollbackPossible));
    RetryMeans(After(steps), c, ok);
  }

  lemma RetryMeans(m: Manager, c: Coord, ok: bool)
    requires Inv(m) && m.work == Retrying(c)
    ensures
      var n := FinishRetryStep(m, c, ok);
      && n.work == Idle && c in m.lock.debts && n.lock.plugins == m.lock.plugins && n.active == m.active && n.pins == m.pins
      && (if ok then n.lock.debts == m.lock.debts - {c} else n.lock.debts == m.lock.debts[c := m.lock.debts[c] + 3])
  {
    hide LockInv, Mirrors, InUseIsReady, DebtIsUnused, DoomedIsUnused;
  }

  /** A restart removes exactly the packages no verdict has come for, and forgets debts and pins. */
  lemma RestartKeepsVerified(steps: seq<Step>, c: Coord)
    ensures
      var m, n := After(steps), After(steps + [Restart]);
      && (c in n.lock.plugins <==> Ready(m.lock, c)) && (Ready(m.lock, c) ==> n.lock.plugins[c] == m.lock.plugins[c])
      && n.lock.debts == map[] && n.pins == map[] && n.generations == {} && n.work == Idle
  {
    hide Inv;
    OneMore(steps, Restart);
  }
}
