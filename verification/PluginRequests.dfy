/**
 When a request to the plugin manager is taken up, and what its stops and removals leave. Everything is said of
 what is installed, active, pinned or owed, at any moment of any history.
 */
module PluginRequests {
  import opened Wrappers
  import opened PluginLifecycle
  import V = PluginVerdicts

  /** Activations, pins and running generations are as they were. */
  predicate SameUse(m: Manager, n: Manager) {
    && n.active == m.active && n.previous == m.previous && n.resume == m.resume && n.pins == m.pins
    && n.generations == m.generations && n.lock.activations == m.lock.activations && n.lock.debts == m.lock.debts
  }

  /** One operation at a time: a request waits until the one before is over. */
  lemma OneAtATime(steps: seq<Step>, r: Request)
    requires !After(steps).work.Idle?
    ensures After(steps + [Begin(r)]) == After(steps)
  {
    hide After, Inv;
    V.OneMore(steps, Begin(r));
  }

  // ---- installing and upgrading

  /** A package is staged exactly once, disabled and with a way back. */
  lemma InstallsIff(steps: seq<Step>, c: Coord)
    requires After(steps).work.Idle?
    ensures
      var m, n := After(steps), After(steps + [Begin(ToInstall(c))]);
      if c !in m.lock.plugins
      then SameUse(m, n) && n.work == Installing(c) && n.lock.plugins == m.lock.plugins[c := Entry(Staging, false, true)]
      else n == m
  {
    hide After, Inv;
    V.OneMore(steps, Begin(ToInstall(c)));
  }

  /** An upgrade begins exactly for an active plugin and a version of it that is not installed. */
  lemma UpgradesIff(steps: seq<Step>, c: Coord)
    requires After(steps).work.Idle?
    ensures
      var m, n := After(steps), After(steps + [Begin(ToUpgrade(c))]);
      if c.id in m.active && c !in m.lock.plugins
      then SameUse(m, n) && n.work == Upgrading(c) && n.lock.plugins == m.lock.plugins[c := Entry(Staging, false, true)]
      else n == m
  {
    hide After;
    V.OneMore(steps, Begin(ToUpgrade(c)));
    if c.id in After(steps).active { ActiveIsInstalled(After(steps), c.id); }
  }

  lemma ActiveIsInstalled(m: Manager, id: Id)
    requires Inv(m) && id in m.active
    ensures Ready(m.lock, Coord(id, m.active[id]))
  {
    ActivesAreReady(m);
    assert IsActive(m, Coord(id, m.active[id]));
  }

  // ---- disabling

  /**
   A plugin is disabled exactly when it is active, in the version expected if there is one. It may resume that
   version; the generations of it that no run is pinned to are to be stopped, and no others.
   */
  lemma DisablesIff(steps: seq<Step>, id: Id, expected: Option<Version>)
    requires After(steps).work.Idle?
    ensures
      var m, n := After(steps), After(steps + [Begin(ToDisable(id, expected))]);
      if id in m.active && (expected == None || expected == Some(m.active[id])) then
        && id !in n.active && Get(n.resume, id) == Some(m.active[id]) && n.pins == m.pins
        && n.generations == m.generations && n.lock.debts == m.lock.debts
        && (forall other | other != id :: Get(n.active, other) == Get(m.active, other))
        && n.work.Disabling?
        && (forall c :: c in n.work.targets <==>
              c in m.generations && c.id == id && forall run: RunId :: !PinnedBy(m.pins, run, c))
      else n == m
  {
    hide After;
    V.OneMore(steps, Begin(ToDisable(id, expected)));
    DisableMeans(After(steps), id, expected);
  }

  lemma PinnedIff(pins: Pins, c: Coord)
    ensures Pinned(pins, c) <==> exists run: RunId :: PinnedBy(pins, run, c)
  {}

  lemma DisableMeans(m: Manager, id: Id, expected: Option<Version>)
    requires Inv(m) && m.work.Idle?
    ensures
      var n := DisableStep(m, id, expected);
      if id in m.active && (expected == None || expected == Some(m.active[id])) then
        && id !in n.active && Get(n.resume, id) == Some(m.active[id]) && n.pins == m.pins
        && n.generations == m.generations && n.lock.debts == m.lock.debts
        && (forall other | other != id :: Get(n.active, other) == Get(m.active, other))
        && n.work.Disabling?
        && (forall c :: c in n.work.targets <==>
              c in m.generations && c.id == id && forall run: RunId :: !PinnedBy(m.pins, run, c))
      else n == m
  {
    assert Get(m.active, id) == Current(m.lock, id).active;
    if id in m.active { ActiveIsInstalled(m, id); }
  }

  /** What was stopped owes nothing any more; what could not be stopped owes three attempts more. */
  lemma StopsAreSettled(steps: seq<Step>, failed: set<Coord>)
    requires After(steps).work.Disabling?
    ensures
      var m, n, targets := After(steps), After(steps + [StopsDone(failed)]), After(steps).work.targets;
      && n.work == Idle && n.active == m.active && n.pins == m.pins && n.lock.plugins == m.lock.plugins
      && (forall c :: c in n.lock.debts <==> (c in targets && c in failed) || (c in m.lock.debts && c !in targets))
      && (forall c | c in n.lock.debts ::
            n.lock.debts[c] ==
              (if c in m.lock.debts then m.lock.debts[c] else 0) + if c in targets && c in failed then 3 else 0)
  {
    hide After, Inv;
    V.OneMore(steps, StopsDone(failed));
  }

  // ---- uninstalling

  /** A package may go exactly when it is neither active nor pinned. */
  lemma UninstallsIff(steps: seq<Step>, c: Coord)
    requires After(steps).work.Idle?
    ensures
      var m, n := After(steps), After(steps + [Begin(ToUninstall(c))]);
      n == if !IsActive(m, c) && forall run: RunId :: !PinnedBy(m.pins, run, c) then m.(work := Uninstalling(c)) else m
  {
    hide After, Inv;
    V.OneMore(steps, Begin(ToUninstall(c)));
    PinnedIff(After(steps).pins, c);
  }

  /** Once it is stopped, it is gone, with its debt and whatever pointed to it; if it could not be stopped, all stays. */
  lemma UninstalledIsGone(steps: seq<Step>, c: Coord, ok: bool, rollbackPossible: bool)
    requires After(steps).work == Uninstalling(c)
    ensures
      var m, n := After(steps), After(steps + [Verdict(ok, rollbackPossible)]);
      if ok then
        && n.work == Idle && n.active == m.active && n.pins == m.pins
        && n.lock.plugins == m.lock.plugins - {c} && n.lock.debts == m.lock.debts - {c}
        && Get(n.previous, c.id) != Some(c.version) && Get(n.resume, c.id) != Some(c.version)
        && (forall id | Get(m.previous, id) != Some(c.version) || id != c.id :: Get(n.previous, id) == Get(m.previous, id))
        && (forall id | Get(m.resume, id) != Some(c.version) || id != c.id :: Get(n.resume, id) == Get(m.resume, id))
      else n == m.(work := Idle)
  {
    hide After, Inv;
    V.OneMore(steps, Verdict(ok, rollbackPossible));
    UninstallFacts(After(steps), c);
    UninstallMeans(After(steps), c, ok);
  }

  lemma UninstallMeans(m: Manager, c: Coord, ok: bool)
    requires Current(m.lock, c.id).active != Some(c.version)
    requires Unreferenced(m, c)
    ensures
      var n := FinishUninstallStep(m, c, ok);
      if ok then
        && n.work == Idle && n.active == m.active && n.pins == m.pins
        && n.lock.plugins == m.lock.plugins - {c} && n.lock.debts == m.lock.debts - {c}
        && Get(n.previous, c.id) != Some(c.version) && Get(n.resume, c.id) != Some(c.version)
        && (forall id | Get(m.previous, id) != Some(c.version) || id != c.id :: Get(n.previous, id) == Get(m.previous, id))
        && (forall id | Get(m.resume, id) != Some(c.version) || id != c.id :: Get(n.resume, id) == Get(m.resume, id))
      else n == m.(work := Idle)
  {
    hide IsActive;
  }

  /** Nothing points to a package that is not installed. */
  predicate Unreferenced(m: Manager, c: Coord) {
    c !in m.lock.plugins ==> Get(m.previous, c.id) != Some(c.version) && Get(m.resume, c.id) != Some(c.version)
  }

  lemma UninstallFacts(m: Manager, c: Coord)
    requires Inv(m) && m.work == Uninstalling(c)
    ensures Current(m.lock, c.id).active != Some(c.version) && Unreferenced(m, c)
  {
    assert Get(m.active, c.id) == Current(m.lock, c.id).active && !IsActive(m, c);
    assert Get(m.previous, c.id) == Current(m.lock, c.id).previous && Get(m.resume, c.id) == Current(m.lock, c.id).resume;
    if c.id in m.lock.activations {
      assert ValidActivation(m.lock, c.id, m.lock.activations[c.id]) && PreviousIsSound(m.lock, c.id, m.lock.activations[c.id]);
    }
  }

  // ---- runs

  /** The first look pins a run to what is active then; later looks change nothing. */
  lemma PinsOnce(steps: seq<Step>, run: RunId)
    ensures
      var m, n := After(steps), After(steps + [Pin(run)]);
      n == if run in m.pins then m else m.(pins := m.pins[run := m.active])
  {
    hide After, Inv;
    V.OneMore(steps, Pin(run));
  }

  /** A call starts the generation that its run is pinned to, or that is active where no run calls; a first call pins. */
  lemma CallsPinned(steps: seq<Step>, run: RunId, id: Id)
    ensures
      var m, n := After(steps), After(steps + [Call(Some(run), id)]);
      var seen := if run in m.pins then m.pins[run] else m.active;
      && n.pins == m.pins[run := seen] && n.lock == m.lock && n.active == m.active && n.work == m.work
      && n.generations == if id in seen then m.generations + {Coord(id, seen[id])} else m.generations
  {
    hide After, Inv;
    V.OneMore(steps, Call(Some(run), id));
    SeenIsInstalled(After(steps), run, id);
  }

  lemma SeenIsInstalled(m: Manager, run: RunId, id: Id)
    requires Inv(m)
    ensures run in m.pins && id in m.pins[run] ==> Coord(id, m.pins[run][id]) in m.lock.plugins
    ensures id in m.active ==> Coord(id, m.active[id]) in m.lock.plugins
  {
    if run in m.pins && id in m.pins[run] { assert PinnedBy(m.pins, run, Coord(id, m.pins[run][id])); }
    if id in m.active { ActiveIsInstalled(m, id); }
  }

  /** Releasing a run looks at every version it saw, once. */
  lemma ReleasesIff(steps: seq<Step>, run: RunId)
    requires After(steps).work.Idle?
    ensures
      var m, n := After(steps), After(steps + [Begin(ToRelease(run))]);
      if run in m.pins then
        && n.work.Releasing? && n == m.(work := n.work)
        && n.work.run == run && n.work.current == None && n.work.failed == {}
        && (forall c :: c in n.work.todo <==> PinnedBy(m.pins, run, c))
      else n == m
  {
    hide After, Inv;
    V.OneMore(steps, Begin(ToRelease(run)));
    if run in After(steps).pins { CoordsMean(After(steps).pins, run); }
  }

  lemma CoordsMean(pins: Pins, run: RunId)
    requires run in pins
    ensures forall c :: c in Coords(pins[run]) <==> PinnedBy(pins, run, c)
  {}

  /** A version that is active, or that another run is pinned to, stays; any other is to be stopped. */
  lemma ReleaseStopsUnused(steps: seq<Step>, c: Coord)
    requires After(steps).work.Releasing? && After(steps).work.current == None && c in After(steps).work.todo
    ensures
      var m, n := After(steps), After(steps + [Turn(c)]);
      var used := IsActive(m, c) || exists other: RunId :: other != m.work.run && PinnedBy(m.pins, other, c);
      && n.work.Releasing? && n == m.(work := n.work)
      && n.work == m.work.(todo := m.work.todo - {c}, current := if used then None else Some(c))
  {
    hide After, Inv;
    V.OneMore(steps, Turn(c));
  }

  /** The loop takes its turns one after the other: none while a stop is awaited, and each version once. */
  lemma ReleaseTakesTurns(steps: seq<Step>, c: Coord, ok: bool, rollbackPossible: bool)
    requires After(steps).work.Releasing?
    ensures
      var m := After(steps);
      && (m.work.current.Some? || c !in m.work.todo ==> After(steps + [Turn(c)]) == m)
      && (m.work.current == None && m.work.todo != {} ==> After(steps + [Verdict(ok, rollbackPossible)]) == m)
  {
    hide After, Inv;
    V.OneMore(steps, Turn(c));
    V.OneMore(steps, Verdict(ok, rollbackPossible));
  }

  /** A stop that succeeds settles what the version owed; one that fails is remembered, and the loop goes on. */
  lemma ReleaseGoesOn(steps: seq<Step>, ok: bool, rollbackPossible: bool)
    requires After(steps).work.Releasing? && After(steps).work.current.Some?
    ensures
      var m, n := After(steps), After(steps + [Verdict(ok, rollbackPossible)]);
      var c := m.work.current.value;
      && n.active == m.active && n.pins == m.pins && n.lock.plugins == m.lock.plugins && n.work.Releasing?
      && n.work == m.work.(current := None, failed := if ok then m.work.failed else m.work.failed + {c})
      && n.lock.debts == if ok then m.lock.debts - {c} else m.lock.debts
  {
    hide After, Inv;
    V.OneMore(steps, Verdict(ok, rollbackPossible));
  }

  /** When nothing is left to look at, the run is pinned no more, and what could not be stopped is owed. */
  lemma ReleasedRunIsFree(steps: seq<Step>, ok: bool, rollbackPossible: bool)
    requires After(steps).work.Releasing? && After(steps).work.current == None && After(steps).work.todo == {}
    ensures
      var m, n := After(steps), After(steps + [Verdict(ok, rollbackPossible)]);
      && n.work == Idle && n.pins == m.pins - {m.work.run} && n.active == m.active && n.lock.plugins == m.lock.plugins
      && (forall c :: c in n.lock.debts <==> c in m.lock.debts || c in m.work.failed)
      && (forall c | c in n.lock.debts ::
            n.lock.debts[c] == (if c in m.lock.debts then m.lock.debts[c] else 0) + if c in m.work.failed then 3 else 0)
  {
    hide After, Inv;
    V.OneMore(steps, Verdict(ok, rollbackPossible));
  }

  /** Only what is owed is tried again. */
  lemma RetriesIff(steps: seq<Step>, c: Coord)
    requires After(steps).work.Idle?
    ensures
      var m, n := After(steps), After(steps + [Begin(ToRetry(c))]);
      n == if c in m.lock.debts then m.(work := Retrying(c)) else m
  {
    hide After, Inv;
    V.OneMore(steps, Begin(ToRetry(c)));
  }
}
