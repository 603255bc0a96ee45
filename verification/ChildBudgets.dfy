/**
 Subagent budgets: what a parent may still hand out, what a child is given, and the proof
 that no history of spawns lets a level of descendants hold more than the root.
 */
module ChildBudgets {
  import opened Wrappers
  import opened RunBudgets
  import opened RunStates

  type RunId = nat

  /** A requested budget; absent fields take defaults. */
  datatype PartialBudget = PartialBudget(
    maxTurns: Option<real>, maxToolCalls: Option<real>, maxInputTokens: Option<real>, maxOutputTokens: Option<real>,
    maxCostUsd: Option<real>, totalTimeoutMs: Option<real>, modelIdleTimeoutMs: Option<real>,
    commandTimeoutMs: Option<real>)

  datatype Profile = Profile(allowedTools: set<string>, modelCapabilities: set<string>)

  /**
   Idempotency keys are text of the caller's choosing; the ones made for subagents carry the
   parent's identifier. Nothing keeps an outside caller from choosing a text of that form.
   */
  datatype Key = Plain(text: string) | Subagent(parent: RunId, text: string)

  datatype Run = Run(
    owner: string, agent: string, input: string, key: Key,
    parent: Option<RunId>, depth: nat, budget: Budget, usage: Usage, status: RunStatus)

  datatype Request = Request(parentId: RunId, agent: string, input: string, key: string, budget: PartialBudget)

  datatype SpawnError =
    | ParentUnavailable | NestingLimit | ProfileUnavailable | ToolsExceedParent | CapabilitiesExceedParent
    | KeyReused | BudgetExceeded

  datatype Spawned = Created(id: RunId) | Replayed(id: RunId)

  function Max(a: real, b: real): real { if a < b then b else a }

  function Min(a: real, b: real): real { if a < b then a else b }

  function OrElse<T>(o: Option<T>, default: T): T { if o.Some? then o.value else default }

  const NOTHING := Budget(0.0, 0.0, 0.0, 0.0, 0.0, 0.0, 0.0, 0.0)

  /** The reduction over all children: amounts add up, timeouts take the largest. */
  function Allocated(children: seq<Run>): Budget {
    if children == [] then NOTHING else
    var sum, b := Allocated(children[..|children| - 1]), children[|children| - 1].budget;
    Budget(sum.maxTurns + b.maxTurns, sum.maxToolCalls + b.maxToolCalls, sum.maxInputTokens + b.maxInputTokens,
           sum.maxOutputTokens + b.maxOutputTokens, sum.maxCostUsd + b.maxCostUsd,
           Max(sum.totalTimeoutMs, b.totalTimeoutMs), Max(sum.modelIdleTimeoutMs, b.modelIdleTimeoutMs),
           Max(sum.commandTimeoutMs, b.commandTimeoutMs))
  }

  /** `remainingChildBudget`. */
  function Remaining(parent: Run, children: seq<Run>): Budget {
    var a, b, u := Allocated(children), parent.budget, parent.usage;
    Budget(
      Max(0.0, b.maxTurns - a.maxTurns),
      Max(0.0, b.maxToolCalls - a.maxToolCalls),
      if u.inputTokens.None? then 0.0 else Max(0.0, b.maxInputTokens - u.inputTokens.value - a.maxInputTokens),
      if u.outputTokens.None? then 0.0 else Max(0.0, b.maxOutputTokens - u.outputTokens.value - a.maxOutputTokens),
      if u.costUsd.None? then 0.0 else Max(0.0, b.maxCostUsd - u.costUsd.value - a.maxCostUsd),
      b.totalTimeoutMs, b.modelIdleTimeoutMs, b.commandTimeoutMs)
  }

  /** `boundedChildBudget`. */
  function Bounded(requested: PartialBudget, parent: Run, available: Budget): Result<Budget, SpawnError> {
    var b := Budget(
      OrElse(requested.maxTurns, Min(4.0, available.maxTurns)),
      OrElse(requested.maxToolCalls, Min(8.0, available.maxToolCalls)),
      OrElse(requested.maxInputTokens, Min(64_000.0, available.maxInputTokens)),
      OrElse(requested.maxOutputTokens, Min(16_000.0, available.maxOutputTokens)),
      OrElse(requested.maxCostUsd, Min(5.0, available.maxCostUsd)),
      OrElse(requested.totalTimeoutMs, Min(300_000.0, parent.budget.totalTimeoutMs)),
      OrElse(requested.modelIdleTimeoutMs, parent.budget.modelIdleTimeoutMs),
      OrElse(requested.commandTimeoutMs, parent.budget.commandTimeoutMs));
    if b.maxTurns <= 0.0 || b.maxTurns > available.maxTurns then Err(BudgetExceeded)
    else if b.maxInputTokens <= 0.0 || b.maxInputTokens > available.maxInputTokens then Err(BudgetExceeded)
    else if b.maxOutputTokens <= 0.0 || b.maxOutputTokens > available.maxOutputTokens then Err(BudgetExceeded)
    else if b.maxToolCalls < 0.0 || b.maxToolCalls > available.maxToolCalls then Err(BudgetExceeded)
    else if b.maxCostUsd < 0.0 || b.maxCostUsd > available.maxCostUsd then Err(BudgetExceeded)
    else if b.totalTimeoutMs <= 0.0 || b.totalTimeoutMs > parent.budget.totalTimeoutMs then Err(BudgetExceeded)
    else if b.modelIdleTimeoutMs <= 0.0 || b.modelIdleTimeoutMs > parent.budget.modelIdleTimeoutMs then Err(BudgetExceeded)
    else if b.commandTimeoutMs <= 0.0 || b.commandTimeoutMs > parent.budget.commandTimeoutMs then Err(BudgetExceeded)
    else Ok(b)
  }

  // ---- spawning

  /** The store's runs; a run's identifier is its position. */
  type Runs = seq<Run>

  predicate IsChild(runs: Runs, i: RunId, p: RunId) { i < |runs| && runs[i].parent == Some(p) }

  /** `listChildRuns`, over the first `n` runs. */
  function ChildrenOf(runs: Runs, p: RunId, n: nat): seq<Run>
    requires n <= |runs|
  {
    if n == 0 then []
    else ChildrenOf(runs, p, n - 1) + if IsChild(runs, n - 1, p) then [runs[n - 1]] else []
  }

  /** The first child of `p`, from run `from` on, that carries the key. */
  function FindReplay(runs: Runs, p: RunId, key: Key, from: nat): (found: Option<RunId>)
    requires from <= |runs|
    ensures found.Some? ==> IsChild(runs, found.value, p) && runs[found.value].key == key
    ensures found.None? ==> forall i | from <= i < |runs| && IsChild(runs, i, p) :: runs[i].key != key
    decreases |runs| - from
  {
    if from == |runs| then None
    else if IsChild(runs, from, p) && runs[from].key == key then Some(from)
    else FindReplay(runs, p, key, from + 1)
  }

  predicate Agrees<T(==)>(asked: Option<T>, given: T) { asked.Some? ==> given == asked.value }

  /** Does an existing child answer this request: same agent, same input, every budget field asked for? */
  predicate Matches(child: Run, r: Request) {
    && child.agent == r.agent && child.input == r.input
    && Agrees(r.budget.maxTurns, child.budget.maxTurns)
    && Agrees(r.budget.maxToolCalls, child.budget.maxToolCalls)
    && Agrees(r.budget.maxInputTokens, child.budget.maxInputTokens)
    && Agrees(r.budget.maxOutputTokens, child.budget.maxOutputTokens)
    && Agrees(r.budget.maxCostUsd, child.budget.maxCostUsd)
    && Agrees(r.budget.totalTimeoutMs, child.budget.totalTimeoutMs)
    && Agrees(r.budget.modelIdleTimeoutMs, child.budget.modelIdleTimeoutMs)
    && Agrees(r.budget.commandTimeoutMs, child.budget.commandTimeoutMs)
  }

  type Profiles = map<(string, string), Profile>

  /** Configured; 3 unless said otherwise. */
  const MAX_DEPTH: int

  /** Why a spawn is refused before any budget is looked at. */
  function Authority(runs: Runs, profiles: Profiles, r: Request): Option<SpawnError> {
    if r.parentId >= |runs| || IsTerminal(runs[r.parentId].status) then Some(ParentUnavailable) else
    var parent := runs[r.parentId];
    if parent.depth >= MAX_DEPTH then Some(NestingLimit)
    else if (parent.owner, r.agent) !in profiles then Some(ProfileUnavailable)
    else if (parent.owner, parent.agent) !in profiles then None
    else
      var mine, theirs := profiles[(parent.owner, parent.agent)], profiles[(parent.owner, r.agent)];
      if !(theirs.allowedTools <= mine.allowedTools) then Some(ToolsExceedParent)
      else if !(theirs.modelCapabilities <= mine.modelCapabilities) then Some(CapabilitiesExceedParent)
      else None
  }

  /** The store admits one run per owner and key. */
  predicate KeyTaken(runs: Runs, owner: string, key: Key) {
    exists i | 0 <= i < |runs| :: runs[i].owner == owner && runs[i].key == key
  }

  function Child(parent: Run, r: Request, budget: Budget): Run {
    Run(parent.owner, r.agent, r.input, Subagent(r.parentId, r.key), Some(r.parentId), parent.depth + 1, budget,
        UNREPORTED, Accepted)
  }

  /** What `createChildRun` answers, before anything is stored. */
  function Decide(runs: Runs, profiles: Profiles, r: Request): (d: Result<Spawned, SpawnError>)
    ensures d.Ok? ==> r.parentId < |runs|
  {
    var refused := Authority(runs, profiles, r);
    if refused.Some? then Err(refused.value) else
    var parent := runs[r.parentId];
    var replay := FindReplay(runs, r.parentId, Subagent(r.parentId, r.key), 0);
    if replay.Some? then
      if Matches(runs[replay.value], r) then Ok(Replayed(replay.value)) else Err(KeyReused)
    else
      var budget := Granted(runs, r);
      if budget.Err? then Err(budget.error)
      else if KeyTaken(runs, parent.owner, Subagent(r.parentId, r.key)) then Err(KeyReused)
      else Ok(Created(|runs|))
  }

  /** The budget a new child would get. */
  function Granted(runs: Runs, r: Request): Result<Budget, SpawnError>
    requires r.parentId < |runs|
  {
    var parent := runs[r.parentId];
    Bounded(r.budget, parent, Remaining(parent, ChildrenOf(runs, r.parentId, |runs|)))
  }

  function Spawn(runs: Runs, profiles: Profiles, r: Request): Runs {
    var d := Decide(runs, profiles, r);
    if d.Ok? && d.value.Created? then runs + [Child(runs[r.parentId], r, Granted(runs, r).value)] else runs
  }

  // ---- histories

  datatype Step =
    | StartRoot(owner: string, agent: string, input: string, key: Key, budget: Budget)
    | SpawnChild(profiles: Profiles, request: Request)
    | Report(id: RunId, delta: Usage)
    | Progress(id: RunId, status: RunStatus)

  /** What every stored budget satisfies. */
  predicate Sane(b: Budget) {
    && b.maxTurns > 0.0 && b.maxToolCalls >= 0.0 && b.maxInputTokens > 0.0 && b.maxOutputTokens > 0.0
    && b.maxCostUsd >= 0.0 && b.totalTimeoutMs > 0.0 && b.modelIdleTimeoutMs > 0.0 && b.commandTimeoutMs > 0.0
  }

  predicate WholeIn(r: real, low: real, high: real) { IsWhole(r) && low <= r <= high }

  /** What the request schema demands of a root's budget. */
  predicate FitsSchema(b: Budget) {
    && WholeIn(b.maxTurns, 1.0, 128.0) && WholeIn(b.maxToolCalls, 0.0, 10_000.0)
    && IsWhole(b.maxInputTokens) && b.maxInputTokens >= 1.0 && IsWhole(b.maxOutputTokens) && b.maxOutputTokens >= 1.0
    && b.maxCostUsd >= 0.0 && WholeIn(b.totalTimeoutMs, 100.0, 86_400_000.0)
    && WholeIn(b.modelIdleTimeoutMs, 100.0, 3_600_000.0) && WholeIn(b.commandTimeoutMs, 100.0, 3_600_000.0)
  }

  function Next(runs: Runs, s: Step): Runs {
    match s
    case StartRoot(owner, agent, input, key, budget) =>
      if FitsSchema(budget) && !KeyTaken(runs, owner, key)
      then runs + [Run(owner, agent, input, key, None, 0, budget, UNREPORTED, Accepted)] else runs
    case SpawnChild(profiles, request) => Spawn(runs, profiles, request)
    case Report(id, delta) =>
      if id < |runs| && !IsTerminal(runs[id].status)
      then runs[id := runs[id].(usage := PlusUsage(runs[id].usage, delta))] else runs
    case Progress(id, status) =>
      if id < |runs| && MayMove(runs[id].status, status) then runs[id := runs[id].(status := status)] else runs
  }

  function AfterFrom(runs: Runs, steps: seq<Step>): Runs
    decreases |steps|
  {
    if steps == [] then runs else AfterFrom(Next(runs, steps[0]), steps[1..])
  }

  function After(steps: seq<Step>): Runs { AfterFrom([], steps) }

  // ---- conservation between a parent and its children

  datatype Dimension = Turns | ToolCalls | InputTokens | OutputTokens | Cost

  function Amount(b: Budget, d: Dimension): real {
    match d
    case Turns => b.maxTurns
    case ToolCalls => b.maxToolCalls
    case InputTokens => b.maxInputTokens
    case OutputTokens => b.maxOutputTokens
    case Cost => b.maxCostUsd
  }

  /** What is recorded as used; turns are counted by the loop and recorded nowhere. */
  function Used(u: Usage, d: Dimension): (r: real)
    ensures r >= 0.0
  {
    match d
    case InputTokens => if u.inputTokens.Some? then u.inputTokens.value else 0.0
    case OutputTokens => if u.outputTokens.Some? then u.outputTokens.value else 0.0
    case Cost => if u.costUsd.Some? then u.costUsd.value else 0.0
    case ToolCalls => u.toolCalls as real
    case Turns => 0.0
  }

  /** The dimensions in which the parent's own usage counts when a child is given its share. */
  predicate Metered(d: Dimension) { d.InputTokens? || d.OutputTokens? || d.Cost? }

  predicate Known(u: Usage, d: Dimension) {
    match d
    case InputTokens => u.inputTokens.Some?
    case OutputTokens => u.outputTokens.Some?
    case Cost => u.costUsd.Some?
    case _ => true
  }

  /** The sum of what the children of `p` among the first `n` runs were given. */
  function ChildSum(runs: Runs, p: RunId, d: Dimension, n: nat): real
    requires n <= |runs|
  {
    if n == 0 then 0.0
    else ChildSum(runs, p, d, n - 1) + if IsChild(runs, n - 1, p) then Amount(runs[n - 1].budget, d) else 0.0
  }

  lemma AllocatedAppends(cs: seq<Run>, c: Run, d: Dimension)
    ensures Amount(Allocated(cs + [c]), d) == Amount(Allocated(cs), d) + Amount(c.budget, d)
  {
    assert (cs + [c])[..|cs|] == cs;
  }

  lemma NothingIsNothing(d: Dimension)
    ensures Amount(Allocated([]), d) == 0.0
  {}

  lemma AllocatedGrows(runs: Runs, p: RunId, d: Dimension, n: nat)
    requires n < |runs|
    ensures Amount(Allocated(ChildrenOf(runs, p, n + 1)), d)
      == Amount(Allocated(ChildrenOf(runs, p, n)), d) + if IsChild(runs, n, p) then Amount(runs[n].budget, d) else 0.0
  {
    var before := ChildrenOf(runs, p, n);
    if IsChild(runs, n, p) {
      assert ChildrenOf(runs, p, n + 1) == before + [runs[n]];
      AllocatedAppends(before, runs[n], d);
    } else {
      assert ChildrenOf(runs, p, n + 1) == before + [] == before;
    }
  }

  lemma {:induction false} AllocatedIsChildSum(runs: Runs, p: RunId, d: Dimension, n: nat)
    requires n <= |runs|
    ensures Amount(Allocated(ChildrenOf(runs, p, n)), d) == ChildSum(runs, p, d, n)
  {
    if n == 0 {
      NothingIsNothing(d);
    } else {
      AllocatedIsChildSum(runs, p, d, n - 1);
      AllocatedGrows(runs, p, d, n - 1);
    }
  }

  /** How a run relates to its parent, at the time of spawning and ever after. */
  predicate Descends(child: Run, parent: Run) {
    && child.owner == parent.owner
    && child.depth == parent.depth + 1 <= MAX_DEPTH
    && child.budget.totalTimeoutMs <= parent.budget.totalTimeoutMs
    && child.budget.modelIdleTimeoutMs <= parent.budget.modelIdleTimeoutMs
    && child.budget.commandTimeoutMs <= parent.budget.commandTimeoutMs
  }

  predicate WellPlaced(runs: Runs, i: RunId)
    requires i < |runs|
  {
    && Sane(runs[i].budget)
    && match runs[i].parent
       case None => runs[i].depth == 0
       case Some(p) => p < i && Descends(runs[i], runs[p])
  }

  ghost predicate Conserved(runs: Runs) {
    forall p: RunId, d | p < |runs| :: ChildSum(runs, p, d, |runs|) <= Amount(runs[p].budget, d)
  }

  ghost predicate OneRunPerKey(runs: Runs) {
    forall i: RunId, j: RunId | i < j < |runs| && runs[i].owner == runs[j].owner :: runs[i].key != runs[j].key
  }

  ghost predicate Sound(runs: Runs) {
    && (forall i: RunId | i < |runs| :: WellPlaced(runs, i))
    && Conserved(runs)
    && OneRunPerKey(runs)
  }

  /** Two stores whose runs differ at most in usage and status. */
  ghost predicate SameTree(a: Runs, b: Runs) {
    |a| == |b| && forall i | 0 <= i < |a| :: b[i] == a[i].(usage := b[i].usage, status := b[i].status)
  }

  lemma {:induction false} SameSums(a: Runs, b: Runs, p: RunId, d: Dimension, n: nat)
    requires n <= |a| <= |b| && forall i | 0 <= i < n :: a[i].parent == b[i].parent && a[i].budget == b[i].budget
    ensures ChildSum(a, p, d, n) == ChildSum(b, p, d, n)
  {
    if n > 0 { SameSums(a, b, p, d, n - 1); }
  }

  lemma SameTreeSound(a: Runs, b: Runs)
    requires Sound(a) && SameTree(a, b)
    ensures Sound(b)
  {
    forall i: RunId | i < |b| ensures WellPlaced(b, i) { assert WellPlaced(a, i); }
    forall p: RunId, d | p < |b| ensures ChildSum(b, p, d, |b|) <= Amount(b[p].budget, d) {
      SameSums(a, b, p, d, |a|);
    }
  }

  lemma {:induction false} NoChildrenYet(runs: Runs, p: RunId, d: Dimension, n: nat)
    requires n <= |runs| <= p && forall i: RunId | i < |runs| :: WellPlaced(runs, i)
    ensures ChildSum(runs, p, d, n) == 0.0
  {
    if n > 0 {
      NoChildrenYet(runs, p, d, n - 1);
      assert WellPlaced(runs, n - 1);
    }
  }

  lemma AddingKeepsPlace(runs: Runs, run: Run, i: RunId)
    requires i < |runs| && WellPlaced(runs, i)
    ensures WellPlaced(runs + [run], i)
  {}

  /** One more run counts for its own parent only. */
  lemma AddingMovesSum(runs: Runs, run: Run, p: RunId, d: Dimension)
    ensures ChildSum(runs + [run], p, d, |runs| + 1)
      == ChildSum(runs, p, d, |runs|) + if run.parent == Some(p) then Amount(run.budget, d) else 0.0
  {
    var all := runs + [run];
    SameSums(runs, all, p, d, |runs|);
    assert IsChild(all, |runs|, p) <==> run.parent == Some(p);
  }

  /** A run that has just been stored has no children. */
  lemma NewIsChildless(runs: Runs, run: Run, d: Dimension)
    requires (forall i: RunId | i < |runs| :: WellPlaced(runs, i)) && WellPlaced(runs + [run], |runs|)
    ensures ChildSum(runs + [run], |runs|, d, |runs| + 1) == 0.0
  {
    AddingMovesSum(runs, run, |runs|, d);
    NoChildrenYet(runs, |runs|, d, |runs|);
  }

  lemma AddingKeepsPlaces(runs: Runs, run: Run)
    requires (forall i: RunId | i < |runs| :: WellPlaced(runs, i)) && WellPlaced(runs + [run], |runs|)
    ensures forall i: RunId | i < |runs + [run]| :: WellPlaced(runs + [run], i)
  {
    hide WellPlaced;
    forall i: RunId | i < |runs + [run]| ensures WellPlaced(runs + [run], i) {
      if i < |runs| { AddingKeepsPlace(runs, run, i); }
    }
  }

  lemma AddingKeepsConserved(runs: Runs, run: Run)
    requires (forall i: RunId | i < |runs| :: WellPlaced(runs, i)) && Conserved(runs) && WellPlaced(runs + [run], |runs|)
    requires run.parent.Some? ==> forall d ::
      ChildSum(runs, run.parent.value, d, |runs|) + Amount(run.budget, d) <= Amount(runs[run.parent.value].budget, d)
    ensures Conserved(runs + [run])
  {
    hide ChildSum;
    var all := runs + [run];
    assert Sane(run.budget) by { assert all[|runs|] == run; }
    hide WellPlaced;
    forall p: RunId, d | p < |all| ensures ChildSum(all, p, d, |all|) <= Amount(all[p].budget, d) {
      if p < |runs| { AddingMovesSum(runs, run, p, d); } else { NewIsChildless(runs, run, d); }
    }
  }

  lemma AddingKeepsKeys(runs: Runs, run: Run)
    requires OneRunPerKey(runs) && !KeyTaken(runs, run.owner, run.key)
    ensures OneRunPerKey(runs + [run])
  {}

  /** Storing one more run keeps the store sound if its parent, when it has one, still has room. */
  lemma AddingKeepsSound(runs: Runs, run: Run)
    requires Sound(runs) && WellPlaced(runs + [run], |runs|) && !KeyTaken(runs, run.owner, run.key)
    requires run.parent.Some? ==> forall d ::
      ChildSum(runs, run.parent.value, d, |runs|) + Amount(run.budget, d) <= Amount(runs[run.parent.value].budget, d)
    ensures Sound(runs + [run])
  {
    hide WellPlaced, Conserved, OneRunPerKey, KeyTaken;
    AddingKeepsPlaces(runs, run);
    AddingKeepsConserved(runs, run);
    AddingKeepsKeys(runs, run);
  }

  /** What is left over, when anything is, leaves room beside what was handed out and what was used. */
  lemma RemainingFits(parent: Run, children: seq<Run>, d: Dimension)
    ensures Amount(Remaining(parent, children), d) >= 0.0
    ensures Amount(Remaining(parent, children), d) > 0.0
      ==> Amount(Allocated(children), d) + Amount(Remaining(parent, children), d)
          + (if Metered(d) then Used(parent.usage, d) else 0.0) <= Amount(parent.budget, d)
  {}

  /** A granted budget is sane, fits what is left in every dimension, and its timeouts do not grow. */
  lemma GrantFits(runs: Runs, r: Request, d: Dimension)
    requires r.parentId < |runs| && Granted(runs, r).Ok?
    requires ChildSum(runs, r.parentId, d, |runs|) <= Amount(runs[r.parentId].budget, d)
    ensures
      var parent, b := runs[r.parentId], Granted(runs, r).value;
      && Sane(b)
      && b.totalTimeoutMs <= parent.budget.totalTimeoutMs
      && b.modelIdleTimeoutMs <= parent.budget.modelIdleTimeoutMs
      && b.commandTimeoutMs <= parent.budget.commandTimeoutMs
      && ChildSum(runs, r.parentId, d, |runs|) + Amount(b, d) <= Amount(parent.budget, d)
  {
    var children := ChildrenOf(runs, r.parentId, |runs|);
    var available := Remaining(runs[r.parentId], children);
    AllocatedIsChildSum(runs, r.parentId, d, |runs|);
    assert Amount(Granted(runs, r).value, d) <= Amount(available, d);
    RemainingFits(runs[r.parentId], children, d);
  }

  /** What was asked for is granted as asked, or not at all. */
  lemma GrantedAsAsked(runs: Runs, r: Request)
    requires r.parentId < |runs| && Granted(runs, r).Ok?
    ensures
      var b := Granted(runs, r).value;
      && Agrees(r.budget.maxTurns, b.maxTurns) && Agrees(r.budget.maxToolCalls, b.maxToolCalls)
      && Agrees(r.budget.maxInputTokens, b.maxInputTokens) && Agrees(r.budget.maxOutputTokens, b.maxOutputTokens)
      && Agrees(r.budget.maxCostUsd, b.maxCostUsd) && Agrees(r.budget.totalTimeoutMs, b.totalTimeoutMs)
      && Agrees(r.budget.modelIdleTimeoutMs, b.modelIdleTimeoutMs)
      && Agrees(r.budget.commandTimeoutMs, b.commandTimeoutMs)
  {}

  const ANYTHING := PartialBudget(None, None, None, None, None, None, None, None)

  /**
   A request that names no amount is granted exactly when something is left of the turns and, of known usage, of
   the tokens each way.
   */
  lemma DefaultsAreGrantedIffRoom(runs: Runs, r: Request)
    requires Sound(runs) && r.parentId < |runs| && r.budget == ANYTHING
    ensures
      var parent := runs[r.parentId];
      Granted(runs, r).Ok? <==>
        && ChildSum(runs, r.parentId, Turns, |runs|) < Amount(parent.budget, Turns)
        && parent.usage.inputTokens.Some? && parent.usage.outputTokens.Some?
        && ChildSum(runs, r.parentId, InputTokens, |runs|) + Used(parent.usage, InputTokens)
           < Amount(parent.budget, InputTokens)
        && ChildSum(runs, r.parentId, OutputTokens, |runs|) + Used(parent.usage, OutputTokens)
           < Amount(parent.budget, OutputTokens)
  {
    var parent, children := runs[r.parentId], ChildrenOf(runs, r.parentId, |runs|);
    assert WellPlaced(runs, r.parentId);
    DefaultsAreBounded(parent, Remaining(parent, children));
    AllocatedIsChildSum(runs, r.parentId, Turns, |runs|);
    AllocatedIsChildSum(runs, r.parentId, InputTokens, |runs|);
    AllocatedIsChildSum(runs, r.parentId, OutputTokens, |runs|);
    RemainingIs(parent, children, Turns);
    RemainingIs(parent, children, InputTokens);
    RemainingIs(parent, children, OutputTokens);
  }

  /** The defaults never ask for more than is left. */
  lemma DefaultsAreBounded(parent: Run, available: Budget)
    requires Sane(parent.budget) && available.maxToolCalls >= 0.0 && available.maxCostUsd >= 0.0
    ensures Bounded(ANYTHING, parent, available).Ok? <==>
      available.maxTurns > 0.0 && available.maxInputTokens > 0.0 && available.maxOutputTokens > 0.0
  {}

  lemma SpawnKeepsSound(runs: Runs, profiles: Profiles, r: Request)
    requires Sound(runs)
    ensures Sound(Spawn(runs, profiles, r))
  {
    var decided := Decide(runs, profiles, r);
    if decided.Ok? && decided.value.Created? {
      var child := Child(runs[r.parentId], r, Granted(runs, r).value);
      GrantFits(runs, r, Turns);
      forall d
        ensures ChildSum(runs, r.parentId, d, |runs|) + Amount(child.budget, d) <= Amount(runs[r.parentId].budget, d)
      {
        GrantFits(runs, r, d);
      }
      AddingKeepsSound(runs, child);
    }
  }

  lemma StepKeepsSound(runs: Runs, s: Step)
    requires Sound(runs)
    ensures Sound(Next(runs, s))
  {
    match s
    case StartRoot(owner, agent, input, key, budget) =>
      if FitsSchema(budget) && !KeyTaken(runs, owner, key) {
        AddingKeepsSound(runs, Run(owner, agent, input, key, None, 0, budget, UNREPORTED, Accepted));
      }
    case SpawnChild(profiles, request) => SpawnKeepsSound(runs, profiles, request);
    case Report(_, _) => SameTreeSound(runs, Next(runs, s));
    case Progress(_, _) => SameTreeSound(runs, Next(runs, s));
  }

  lemma {:induction false} StepsKeepSound(runs: Runs, steps: seq<Step>)
    requires Sound(runs)
    ensures Sound(AfterFrom(runs, steps))
    decreases |steps|
  {
    if steps != [] {
      StepKeepsSound(runs, steps[0]);
      StepsKeepSound(Next(runs, steps[0]), steps[1..]);
    }
  }

  /** In every history, no parent's children hold more than the parent in any dimension. */
  lemma ChildrenNeverExceedParent(steps: seq<Step>, p: RunId, d: Dimension)
    requires p < |After(steps)|
    ensures ChildSum(After(steps), p, d, |After(steps)|) <= Amount(After(steps)[p].budget, d)
  {
    StepsKeepSound([], steps);
  }

  // ---- conservation over the whole tree

  /** Run `i` is a descendant of `r`, `k` generations down. */
  predicate At(runs: Runs, r: RunId, i: RunId, k: nat)
    decreases k
  {
    && i < |runs|
    && if k == 0 then i == r else runs[i].parent.Some? && At(runs, r, runs[i].parent.value, k - 1)
  }

  /** What the descendants of `r` at generation `k`, among the first `n` runs, hold together. */
  function LevelSum(runs: Runs, r: RunId, k: nat, d: Dimension, n: nat): real
    requires n <= |runs|
  {
    if n == 0 then 0.0
    else LevelSum(runs, r, k, d, n - 1) + if At(runs, r, n - 1, k) then Amount(runs[n - 1].budget, d) else 0.0
  }

  function LevelCount(runs: Runs, r: RunId, k: nat, n: nat): nat
    requires n <= |runs|
  {
    if n == 0 then 0 else LevelCount(runs, r, k, n - 1) + if At(runs, r, n - 1, k) then 1 else 0
  }

  /** The same sum grouped by parent: over the parents at generation `k`, what their children hold. */
  function GroupedSum(runs: Runs, r: RunId, k: nat, d: Dimension, m: nat, n: nat): real
    requires m <= |runs| && n <= |runs|
  {
    if m == 0 then 0.0
    else GroupedSum(runs, r, k, d, m - 1, n) + if At(runs, r, m - 1, k) then ChildSum(runs, m - 1, d, n) else 0.0
  }

  lemma {:induction false} NothingGrouped(runs: Runs, r: RunId, k: nat, d: Dimension, m: nat)
    requires m <= |runs|
    ensures GroupedSum(runs, r, k, d, m, 0) == 0.0
  {
    if m > 0 { NothingGrouped(runs, r, k, d, m - 1); }
  }

  /** One more run adds its amount to its own parent's group and to no other. */
  lemma {:induction false} GroupGrows(runs: Runs, r: RunId, k: nat, d: Dimension, m: nat, n: nat)
    requires m <= |runs| && n < |runs|
    ensures GroupedSum(runs, r, k, d, m, n + 1) == GroupedSum(runs, r, k, d, m, n)
      + if runs[n].parent.Some? && runs[n].parent.value < m && At(runs, r, runs[n].parent.value, k)
        then Amount(runs[n].budget, d) else 0.0
  {
    if m > 0 { GroupGrows(runs, r, k, d, m - 1, n); }
  }

  lemma {:induction false} LevelIsGrouped(runs: Runs, r: RunId, k: nat, d: Dimension, n: nat)
    requires n <= |runs| && forall i: RunId | i < |runs| :: WellPlaced(runs, i)
    ensures LevelSum(runs, r, k + 1, d, n) == GroupedSum(runs, r, k, d, |runs|, n)
  {
    if n == 0 {
      NothingGrouped(runs, r, k, d, |runs|);
    } else {
      LevelIsGrouped(runs, r, k, d, n - 1);
      GroupGrows(runs, r, k, d, |runs|, n - 1);
      assert WellPlaced(runs, n - 1);
    }
  }

  lemma {:induction false} GroupsWithinParents(runs: Runs, r: RunId, k: nat, d: Dimension, m: nat)
    requires m <= |runs| && Conserved(runs)
    ensures GroupedSum(runs, r, k, d, m, |runs|) <= LevelSum(runs, r, k, d, m)
  {
    if m > 0 { GroupsWithinParents(runs, r, k, d, m - 1); }
  }

  /** A generation never holds more than the one above it. */
  lemma LevelsShrink(runs: Runs, r: RunId, k: nat, d: Dimension)
    requires Sound(runs)
    ensures LevelSum(runs, r, k + 1, d, |runs|) <= LevelSum(runs, r, k, d, |runs|)
  {
    LevelIsGrouped(runs, r, k, d, |runs|);
    GroupsWithinParents(runs, r, k, d, |runs|);
  }

  lemma {:induction false} RootLevel(runs: Runs, r: RunId, d: Dimension, n: nat)
    requires r < |runs| && n <= |runs|
    ensures LevelSum(runs, r, 0, d, n) == if r < n then Amount(runs[r].budget, d) else 0.0
  {
    if n > 0 { RootLevel(runs, r, d, n - 1); }
  }

  lemma {:induction false} LevelWithinRoot(runs: Runs, r: RunId, k: nat, d: Dimension)
    requires Sound(runs) && r < |runs|
    ensures LevelSum(runs, r, k, d, |runs|) <= Amount(runs[r].budget, d)
  {
    if k == 0 {
      RootLevel(runs, r, d, |runs|);
    } else {
      LevelWithinRoot(runs, r, k - 1, d);
      LevelsShrink(runs, r, k - 1, d);
    }
  }

  /** Every run holds at least one turn. */
  ghost predicate TurnEach(runs: Runs) { forall i | 0 <= i < |runs| :: runs[i].budget.maxTurns >= 1.0 }

  lemma {:induction false} CountWithinTurns(runs: Runs, r: RunId, k: nat, n: nat)
    requires n <= |runs| && TurnEach(runs)
    ensures LevelCount(runs, r, k, n) as real <= LevelSum(runs, r, k, Turns, n)
  {
    if n > 0 {
      CountWithinTurns(runs, r, k, n - 1);
      assert runs[n - 1].budget.maxTurns >= 1.0;
    }
  }

  /** A generation is as deep as it says, belongs to the root's owner, and runs under its timeouts. */
  lemma {:induction false} DescendantsOf(runs: Runs, r: RunId, i: RunId, k: nat)
    requires (forall j: RunId | j < |runs| :: WellPlaced(runs, j)) && r < |runs| && At(runs, r, i, k)
    ensures runs[i].depth == runs[r].depth + k && (k > 0 ==> runs[i].depth <= MAX_DEPTH)
    ensures runs[i].owner == runs[r].owner
    ensures runs[i].budget.totalTimeoutMs <= runs[r].budget.totalTimeoutMs
    ensures runs[i].budget.modelIdleTimeoutMs <= runs[r].budget.modelIdleTimeoutMs
    ensures runs[i].budget.commandTimeoutMs <= runs[r].budget.commandTimeoutMs
  {
    assert WellPlaced(runs, i);
    if k > 0 { DescendantsOf(runs, r, runs[i].parent.value, k - 1); }
  }

  /** Every child is given at least one turn, as can be seen before it is stored. */
  predicate TurnsGranted(runs: Runs, steps: seq<Step>)
    decreases |steps|
  {
    steps == [] ||
    (&& (steps[0].SpawnChild? && |Next(runs, steps[0])| > |runs| ==> Granted(runs, steps[0].request).value.maxTurns >= 1.0)
     && TurnsGranted(Next(runs, steps[0]), steps[1..]))
  }

  lemma StepKeepsTurns(runs: Runs, s: Step)
    requires TurnEach(runs)
    requires s.SpawnChild? && |Next(runs, s)| > |runs| ==> Granted(runs, s.request).value.maxTurns >= 1.0
    ensures TurnEach(Next(runs, s))
  {}

  lemma {:induction false} StepsKeepTurns(runs: Runs, steps: seq<Step>)
    requires TurnEach(runs) && TurnsGranted(runs, steps)
    ensures TurnEach(AfterFrom(runs, steps))
    decreases |steps|
  {
    if steps != [] {
      StepKeepsTurns(runs, steps[0]);
      StepsKeepTurns(Next(runs, steps[0]), steps[1..]);
    }
  }

  /**
   In every history and for every run: each generation of its descendants holds at most its budget in
   every dimension, and stays within its depth and timeouts; where every child was given at least one
   turn, it numbers at most its turns.
   */
  lemma TreeIsConserved(steps: seq<Step>, r: RunId, k: nat, d: Dimension)
    requires r < |After(steps)|
    ensures
      var runs := After(steps);
      && LevelSum(runs, r, k, d, |runs|) <= Amount(runs[r].budget, d)
      && (TurnsGranted([], steps) ==> LevelCount(runs, r, k, |runs|) as real <= runs[r].budget.maxTurns)
      && forall i: RunId | At(runs, r, i, k) ::
          && (k == 0 || runs[r].depth + k <= MAX_DEPTH)
          && runs[i].owner == runs[r].owner
          && runs[i].budget.totalTimeoutMs <= runs[r].budget.totalTimeoutMs
          && runs[i].budget.modelIdleTimeoutMs <= runs[r].budget.modelIdleTimeoutMs
          && runs[i].budget.commandTimeoutMs <= runs[r].budget.commandTimeoutMs
  {
    var runs := After(steps);
    StepsKeepSound([], steps);
    LevelWithinRoot(runs, r, k, d);
    LevelWithinRoot(runs, r, k, Turns);
    if TurnsGranted([], steps) {
      StepsKeepTurns([], steps);
      CountWithinTurns(runs, r, k, |runs|);
    }
    forall i: RunId | At(runs, r, i, k)
      ensures k == 0 || runs[r].depth + k <= MAX_DEPTH
      ensures runs[i].owner == runs[r].owner
      ensures runs[i].budget.totalTimeoutMs <= runs[r].budget.totalTimeoutMs
      ensures runs[i].budget.modelIdleTimeoutMs <= runs[r].budget.modelIdleTimeoutMs
      ensures runs[i].budget.commandTimeoutMs <= runs[r].budget.commandTimeoutMs
    {
      DescendantsOf(runs, r, i, k);
    }
  }

  // ---- how many children

  lemma {:induction false} CountIsChildren(runs: Runs, p: RunId, n: nat)
    requires p < |runs| && n <= |runs|
    ensures LevelCount(runs, p, 1, n) == |ChildrenOf(runs, p, n)|
  {
    if n > 0 {
      CountIsChildren(runs, p, n - 1);
      assert At(runs, p, n - 1, 1) <==> runs[n - 1].parent.Some? && At(runs, p, runs[n - 1].parent.value, 0);
    }
  }

  lemma {:induction false} SameChildren(a: Runs, b: Runs, p: RunId, n: nat)
    requires n <= |a| <= |b| && forall i | 0 <= i < n :: a[i] == b[i]
    ensures ChildrenOf(a, p, n) == ChildrenOf(b, p, n)
  {
    if n > 0 { SameChildren(a, b, p, n - 1); }
  }

  lemma ChildJoins(runs: Runs, child: Run, p: RunId)
    requires child.parent == Some(p)
    ensures ChildrenOf(runs + [child], p, |runs| + 1) == ChildrenOf(runs, p, |runs|) + [child]
  {
    SameChildren(runs, runs + [child], p, |runs|);
    assert (runs + [child])[|runs|] == child;
  }

  function Left(runs: Runs, p: RunId): Budget
    requires p < |runs|
  {
    Remaining(runs[p], ChildrenOf(runs, p, |runs|))
  }

  /** The parent may spawn this agent, and something is left of its turns and, of known usage, of its tokens each way. */
  predicate MaySpawn(runs: Runs, profiles: Profiles, p: RunId, agent: string) {
    && p < |runs| && Authority(runs, profiles, Request(p, agent, "", "", ANYTHING)).None?
    && Left(runs, p).maxTurns > 0.0 && Left(runs, p).maxInputTokens > 0.0 && Left(runs, p).maxOutputTokens > 0.0
  }

  /** Half of what is left. */
  function HalfOf(b: Budget): PartialBudget {
    PartialBudget(Some(b.maxTurns / 2.0), Some(0.0), Some(b.maxInputTokens / 2.0), Some(b.maxOutputTokens / 2.0), Some(0.0),
                  None, None, None)
  }

  lemma HalfIsGranted(parent: Run, available: Budget)
    requires Sane(parent.budget) && available.maxToolCalls >= 0.0 && available.maxCostUsd >= 0.0
    requires available.maxTurns > 0.0 && available.maxInputTokens > 0.0 && available.maxOutputTokens > 0.0
    ensures
      var b := Bounded(HalfOf(available), parent, available);
      && b.Ok? && b.value.maxTurns == available.maxTurns / 2.0
      && b.value.maxInputTokens == available.maxInputTokens / 2.0 && b.value.maxOutputTokens == available.maxOutputTokens / 2.0
  {}

  lemma HalfStaysLeft(parent: Run, children: seq<Run>, child: Run, d: Dimension)
    requires Amount(Remaining(parent, children), d) > 0.0
    requires Amount(child.budget, d) == Amount(Remaining(parent, children), d) / 2.0
    ensures Amount(Remaining(parent, children + [child]), d) > 0.0
  {
    AllocatedAppends(children, child, d);
    RemainingIs(parent, children, d);
    RemainingIs(parent, children + [child], d);
  }

  function LongestKey(runs: Runs): nat {
    if runs == [] then 0
    else
      var before, last := LongestKey(runs[..|runs| - 1]), |runs[|runs| - 1].key.text|;
      if before < last then last else before
  }

  lemma {:induction false} NoLonger(runs: Runs, i: RunId)
    requires i < |runs|
    ensures |runs[i].key.text| <= LongestKey(runs)
  {
    if i < |runs| - 1 { NoLonger(runs[..|runs| - 1], i); }
  }

  function NewKey(runs: Runs): string { seq(LongestKey(runs) + 1, _ => 'k') }

  lemma NewKeyIsFree(runs: Runs, p: RunId)
    ensures forall i: RunId | i < |runs| :: runs[i].key != Subagent(p, NewKey(runs))
  {
    forall i: RunId | i < |runs| ensures runs[i].key != Subagent(p, NewKey(runs)) { NoLonger(runs, i); }
  }

  function HalfRequest(runs: Runs, p: RunId, agent: string): Request
    requires p < |runs|
  {
    Request(p, agent, "", NewKey(runs), HalfOf(Left(runs, p)))
  }

  lemma HalfIsSpawned(runs: Runs, profiles: Profiles, p: RunId, agent: string)
    requires Sound(runs) && MaySpawn(runs, profiles, p, agent)
    ensures
      var r := HalfRequest(runs, p, agent);
      && Granted(runs, r) == Bounded(HalfOf(Left(runs, p)), runs[p], Left(runs, p)) && Granted(runs, r).Ok?
      && Spawn(runs, profiles, r) == runs + [Child(runs[p], r, Granted(runs, r).value)]
  {
    var r := HalfRequest(runs, p, agent);
    assert WellPlaced(runs, p);
    HalfIsGranted(runs[p], Left(runs, p));
    NewKeyIsFree(runs, p);
    assert Authority(runs, profiles, r) == Authority(runs, profiles, Request(p, agent, "", "", ANYTHING));
    assert FindReplay(runs, p, Subagent(p, r.key), 0).None?;
    assert !KeyTaken(runs, runs[p].owner, Subagent(p, r.key));
  }

  lemma OneMoreCounts(runs: Runs, child: Run, p: RunId)
    requires p < |runs| && child.parent == Some(p)
    ensures LevelCount(runs + [child], p, 1, |runs| + 1) == LevelCount(runs, p, 1, |runs|) + 1
  {
    ChildJoins(runs, child, p);
    CountIsChildren(runs, p, |runs|);
    CountIsChildren(runs + [child], p, |runs| + 1);
  }

  lemma StillLeft(runs: Runs, p: RunId, child: Run, d: Dimension)
    requires p < |runs| && child.parent == Some(p)
    requires Amount(Left(runs, p), d) > 0.0 && Amount(child.budget, d) == Amount(Left(runs, p), d) / 2.0
    ensures Amount(Left(runs + [child], p), d) > 0.0
  {
    ChildJoins(runs, child, p);
    HalfStaysLeft(runs[p], ChildrenOf(runs, p, |runs|), child, d);
  }

  lemma HalvesGiven(parent: Run, left: Budget, given: Budget)
    requires Sane(parent.budget) && left.maxToolCalls >= 0.0 && left.maxCostUsd >= 0.0
    requires left.maxTurns > 0.0 && left.maxInputTokens > 0.0 && left.maxOutputTokens > 0.0
    requires Bounded(HalfOf(left), parent, left) == Ok(given)
    ensures Amount(given, Turns) == Amount(left, Turns) / 2.0
    ensures Amount(given, InputTokens) == Amount(left, InputTokens) / 2.0
    ensures Amount(given, OutputTokens) == Amount(left, OutputTokens) / 2.0
  {
    HalfIsGranted(parent, left);
  }

  /** After half of what is left has been given away, something is still left. */
  lemma StillSomeLeft(runs: Runs, p: RunId, child: Run)
    requires p < |runs| && child.parent == Some(p) && Sane(runs[p].budget)
    requires Left(runs, p).maxTurns > 0.0 && Left(runs, p).maxInputTokens > 0.0 && Left(runs, p).maxOutputTokens > 0.0
    requires Bounded(HalfOf(Left(runs, p)), runs[p], Left(runs, p)) == Ok(child.budget)
    ensures
      var left := Left(runs + [child], p);
      left.maxTurns > 0.0 && left.maxInputTokens > 0.0 && left.maxOutputTokens > 0.0
  {
    HalvesGiven(runs[p], Left(runs, p), child.budget);
    StillLeft(runs, p, child, Turns);
    StillLeft(runs, p, child, InputTokens);
    StillLeft(runs, p, child, OutputTokens);
  }

  lemma SameAuthority(runs: Runs, more: Runs, profiles: Profiles, p: RunId, agent: string)
    requires p < |runs|
    ensures Authority(runs + more, profiles, Request(p, agent, "", "", ANYTHING))
      == Authority(runs, profiles, Request(p, agent, "", "", ANYTHING))
  {}

  lemma OneMoreChild(runs: Runs, profiles: Profiles, p: RunId, agent: string)
    requires Sound(runs) && MaySpawn(runs, profiles, p, agent)
    ensures
      var all := Spawn(runs, profiles, HalfRequest(runs, p, agent));
      && Sound(all) && MaySpawn(all, profiles, p, agent)
      && LevelCount(all, p, 1, |all|) == LevelCount(runs, p, 1, |runs|) + 1
  {
    var r := HalfRequest(runs, p, agent);
    HalfIsSpawned(runs, profiles, p, agent);
    var child := Child(runs[p], r, Granted(runs, r).value);
    SpawnKeepsSound(runs, profiles, r);
    assert Sane(runs[p].budget) by { assert WellPlaced(runs, p); }
    StillSomeLeft(runs, p, child);
    SameAuthority(runs, [child], profiles, p, agent);
    OneMoreCounts(runs, child, p);
  }

  /**
   Without the condition nothing bounds the number of children: a parent that may spawn and has anything
   left of its turns and tokens can be given any number of them.
   */
  lemma {:induction false} AnyNumberOfChildren(runs: Runs, profiles: Profiles, p: RunId, agent: string, n: nat)
    returns (steps: seq<Step>)
    requires Sound(runs) && MaySpawn(runs, profiles, p, agent)
    ensures |steps| == n && forall s | s in steps :: s.SpawnChild? && s.request.parentId == p && s.request.agent == agent
    ensures
      var all := AfterFrom(runs, steps);
      LevelCount(all, p, 1, |all|) == LevelCount(runs, p, 1, |runs|) + n
    decreases n
  {
    if n == 0 {
      steps := [];
    } else {
      var first := SpawnChild(profiles, HalfRequest(runs, p, agent));
      OneMoreChild(runs, profiles, p, agent);
      var more := AnyNumberOfChildren(Next(runs, first), profiles, p, agent, n - 1);
      steps := [first] + more;
      assert steps[1..] == more;
    }
  }

  /** Later stores keep every run; only usage and status move. */
  ghost predicate Extends(a: Runs, b: Runs) { |a| <= |b| && SameTree(a, b[..|a|]) }

  lemma StepExtends(runs: Runs, s: Step)
    ensures Extends(runs, Next(runs, s))
  {}

  // ---- what usage does and does not bound

  /** Usage is within a budget when it is in every dimension that is recorded. */
  lemma WithinEveryDimension(u: Usage, b: Budget)
    requires Sane(b)
    ensures Within(u, b) <==> forall d :: Used(u, d) <= Amount(b, d)
  {
    if forall d :: Used(u, d) <= Amount(b, d) {
      assert Used(u, InputTokens) <= Amount(b, InputTokens) && Used(u, OutputTokens) <= Amount(b, OutputTokens);
      assert Used(u, Cost) <= Amount(b, Cost) && Used(u, ToolCalls) <= Amount(b, ToolCalls);
    }
  }

  /** A parent whose token usage was never reported gets no new child, whatever is asked. */
  lemma UnknownUsageAdmitsNoChild(runs: Runs, profiles: Profiles, r: Request)
    requires r.parentId < |runs|
    requires runs[r.parentId].usage.inputTokens.None? || runs[r.parentId].usage.outputTokens.None?
    ensures Spawn(runs, profiles, r) == runs
  {}

  /** What run `p` has used and what its children hold are within its budget together. */
  predicate Fits(runs: Runs, p: RunId, d: Dimension)
    requires p < |runs|
  {
    ChildSum(runs, p, d, |runs|) + Used(runs[p].usage, d) <= Amount(runs[p].budget, d)
  }

  function Room(runs: Runs, p: RunId, d: Dimension): real
    requires p < |runs|
  {
    Max(0.0, Amount(runs[p].budget, d) - ChildSum(runs, p, d, |runs|) - Used(runs[p].usage, d))
  }

  /** Where usage counts and is known, the room is what another child could still be given. */
  lemma RoomIsRemaining(runs: Runs, p: RunId, d: Dimension)
    requires p < |runs| && Metered(d) && Known(runs[p].usage, d)
    ensures Room(runs, p, d) == Amount(Remaining(runs[p], ChildrenOf(runs, p, |runs|)), d)
  {
    AllocatedIsChildSum(runs, p, d, |runs|);
  }

  lemma SpawnAdds(runs: Runs, profiles: Profiles, r: Request, d: Dimension)
    requires |Spawn(runs, profiles, r)| > |runs|
    ensures
      var all, p := Spawn(runs, profiles, r), r.parentId;
      && p < |runs| && Granted(runs, r).Ok? && all[p] == runs[p]
      && ChildSum(all, p, d, |all|) == ChildSum(runs, p, d, |runs|) + Amount(Granted(runs, r).value, d)
  {
    SameSums(runs, Spawn(runs, profiles, r), r.parentId, d, |runs|);
  }

  lemma GrantWithinRemaining(runs: Runs, r: Request, d: Dimension)
    requires r.parentId < |runs| && Granted(runs, r).Ok?
    ensures
      0.0 <= Amount(Granted(runs, r).value, d)
      <= Amount(Remaining(runs[r.parentId], ChildrenOf(runs, r.parentId, |runs|)), d)
  {}

  /** What the remaining budget is: in a dimension where usage does not count, it is not taken off. */
  lemma RemainingIs(parent: Run, children: seq<Run>, d: Dimension)
    ensures Amount(Remaining(parent, children), d) ==
      if Metered(d) && !Known(parent.usage, d) then 0.0
      else Max(0.0, Amount(parent.budget, d) - Amount(Allocated(children), d)
                        - if Metered(d) then Used(parent.usage, d) else 0.0)
  {}

  /**
   Right after a spawn: in a dimension where usage counts, both fit if the child was given anything
   there or they fitted before; a tool call allowance must have left room for the calls already made.
   */
  lemma FitsWhenSpawned(runs: Runs, profiles: Profiles, r: Request, d: Dimension)
    requires Sound(runs) && |Spawn(runs, profiles, r)| > |runs|
    ensures
      var grant := Amount(Granted(runs, r).value, d);
      Fits(Spawn(runs, profiles, r), r.parentId, d) <==>
        if Metered(d) then grant > 0.0 || Fits(runs, r.parentId, d)
        else grant + Used(runs[r.parentId].usage, d)
             <= Amount(Remaining(runs[r.parentId], ChildrenOf(runs, r.parentId, |runs|)), d)
    ensures Metered(d) && Amount(Granted(runs, r).value, d) > 0.0 ==> Known(runs[r.parentId].usage, d)
  {
    SpawnAdds(runs, profiles, r, d);
    AllocatedIsChildSum(runs, r.parentId, d, |runs|);
    RemainingIs(runs[r.parentId], ChildrenOf(runs, r.parentId, |runs|), d);
    GrantWithinRemaining(runs, r, d);
  }

  lemma RoomWhenSpawned(runs: Runs, profiles: Profiles, r: Request, d: Dimension)
    requires Sound(runs) && |Spawn(runs, profiles, r)| > |runs|
    ensures
      var all, p := Spawn(runs, profiles, r), r.parentId;
      Metered(d) && Amount(Granted(runs, r).value, d) > 0.0 ==>
        Room(all, p, d) == Amount(Remaining(all[p], ChildrenOf(all, p, |all|)), d)
  {
    if Metered(d) && Amount(Granted(runs, r).value, d) > 0.0 {
      FitsWhenSpawned(runs, profiles, r, d);
      RoomIsRemaining(Spawn(runs, profiles, r), r.parentId, d);
    }
  }

  /** What run `p` is reported to use during these steps; a run that is over takes no report. */
  function ReportedTo(runs: Runs, s: Step, p: RunId, d: Dimension): real {
    if s.Report? && s.id == p < |runs| && !IsTerminal(runs[p].status) then Used(s.delta, d) else 0.0
  }

  function Reported(runs: Runs, steps: seq<Step>, p: RunId, d: Dimension): (r: real)
    ensures r >= 0.0
    decreases |steps|
  {
    if steps == [] then 0.0
    else ReportedTo(runs, steps[0], p, d) + Reported(Next(runs, steps[0]), steps[1..], p, d)
  }

  /** No step of these gives `p` another child. */
  predicate SpawnsNone(runs: Runs, steps: seq<Step>, p: RunId)
    decreases |steps|
  {
    steps == [] ||
    (!IsChild(Next(runs, steps[0]), |runs|, p) && SpawnsNone(Next(runs, steps[0]), steps[1..], p))
  }

  lemma UsageAddsUp(u: Usage, delta: Usage, d: Dimension)
    ensures Used(PlusUsage(u, delta), d) == Used(u, d) + Used(delta, d)
  {}

  lemma StepMovesUsage(runs: Runs, s: Step, p: RunId, d: Dimension)
    requires p < |runs| && !IsChild(Next(runs, s), |runs|, p)
    ensures
      var next := Next(runs, s);
      && p < |next| && next[p].budget == runs[p].budget
      && Used(next[p].usage, d) == Used(runs[p].usage, d) + ReportedTo(runs, s, p, d)
      && ChildSum(next, p, d, |next|) == ChildSum(runs, p, d, |runs|)
  {
    var next := Next(runs, s);
    StepExtends(runs, s);
    assert next[..|runs|][p] == next[p];
    SameSums(runs, next, p, d, |runs|);
    if s.Report? { UsageAddsUp(runs[p].usage, s.delta, d); }
  }

  lemma {:induction false} StepsMoveUsage(runs: Runs, steps: seq<Step>, p: RunId, d: Dimension)
    requires p < |runs| && SpawnsNone(runs, steps, p)
    ensures
      var now := AfterFrom(runs, steps);
      && p < |now| && now[p].budget == runs[p].budget
      && Used(now[p].usage, d) == Used(runs[p].usage, d) + Reported(runs, steps, p, d)
      && ChildSum(now, p, d, |now|) == ChildSum(runs, p, d, |runs|)
    decreases |steps|
  {
    if steps != [] {
      StepMovesUsage(runs, steps[0], p, d);
      StepsMoveUsage(Next(runs, steps[0]), steps[1..], p, d);
    }
  }

  lemma FitsLater(runs: Runs, later: seq<Step>, p: RunId, d: Dimension)
    requires p < |runs| && SpawnsNone(runs, later, p)
    ensures p < |AfterFrom(runs, later)|
    ensures Fits(AfterFrom(runs, later), p, d) <==> Fits(runs, p, d) && Reported(runs, later, p, d) <= Room(runs, p, d)
  {
    StepsMoveUsage(runs, later, p, d);
  }

  /**
   At any time after a parent's latest spawn, its usage and its children's shares fit its budget
   exactly when they did right after that spawn and no more than the room then left has been reported
   since. What was right after the spawn can be read off what was granted and what was there before.
   */
  lemma FitsIffReportedWithinRoom(
    before: seq<Step>, profiles: Profiles, r: Request, later: seq<Step>, d: Dimension)
    requires |Spawn(After(before), profiles, r)| > |After(before)|
    requires SpawnsNone(Spawn(After(before), profiles, r), later, r.parentId)
    ensures
      var start, created := After(before), Spawn(After(before), profiles, r);
      var now, p := AfterFrom(created, later), r.parentId;
      var grant := Amount(Granted(start, r).value, d);
      && p < |now|
      && (Fits(now, p, d) <==> Fits(created, p, d) && Reported(created, later, p, d) <= Room(created, p, d))
      && (Fits(created, p, d) <==>
            if Metered(d) then grant > 0.0 || Fits(start, p, d)
            else grant + Used(start[p].usage, d) <= Amount(Remaining(start[p], ChildrenOf(start, p, |start|)), d))
      && (Metered(d) && grant > 0.0 ==>
            Room(created, p, d) == Amount(Remaining(created[p], ChildrenOf(created, p, |created|)), d))
  {
    StepsKeepSound([], before);
    FitsWhenSpawned(After(before), profiles, r, d);
    FitsLater(Spawn(After(before), profiles, r), later, r.parentId, d);
    RoomWhenSpawned(After(before), profiles, r, d);
  }

  const TEN_TURNS := Budget(10.0, 0.0, 100.0, 100.0, 0.0, 100.0, 100.0, 100.0)
  const ONE_TOKEN := Usage(Some(1.0), Some(1.0), None, 0)
  const ROOT := Run("o", "a", "", Plain(""), None, 0, TEN_TURNS, ONE_TOKEN, Accepted)
  const FOR_A_CHILD := Request(0, "a", "", "", ANYTHING)

  const GIVEN := Budget(4.0, 0.0, 99.0, 99.0, 0.0, 100.0, 100.0, 100.0)
  const ITS_CHILD := Child(ROOT, FOR_A_CHILD, GIVEN)

  lemma ChildGetsTheRest()
    ensures Granted([ROOT], FOR_A_CHILD) == Ok(GIVEN)
  {
    assert ChildrenOf([ROOT], 0, 1) == [];
  }

  lemma ChildOfRoot(profiles: Profiles)
    requires MAX_DEPTH > 0
    requires profiles == map[("o", "a") := Profile({}, {})]
    ensures Spawn([ROOT], profiles, FOR_A_CHILD) == [ROOT, ITS_CHILD]
  {
    ChildGetsTheRest();
    assert FindReplay([ROOT], 0, Subagent(0, ""), 1).None?;
  }

  lemma FourSteps(runs: Runs, a: Step, b: Step, c: Step, d: Step)
    ensures AfterFrom(runs, [a, b, c, d]) == Next(Next(Next(Next(runs, a), b), c), d)
  {
    assert [a, b, c, d][1..] == [b, c, d] && [b, c, d][1..] == [c, d] && [c, d][1..] == [d] && [d][1..] == [];
    assert AfterFrom(runs, [a, b, c, d]) == AfterFrom(Next(runs, a), [b, c, d]);
    assert AfterFrom(Next(runs, a), [b, c, d]) == AfterFrom(Next(Next(runs, a), b), [c, d]);
    assert AfterFrom(Next(Next(runs, a), b), [c, d]) == AfterFrom(Next(Next(Next(runs, a), b), c), [d]);
    assert AfterFrom(Next(Next(Next(Next(runs, a), b), c), d), []) == Next(Next(Next(Next(runs, a), b), c), d);
  }

  lemma NothingLeft(runs: Runs)
    requires runs == [ROOT, ITS_CHILD]
    ensures !IsTerminal(runs[0].status)
    ensures ChildSum(runs, 0, InputTokens, |runs|) + Used(runs[0].usage, InputTokens) == Amount(runs[0].budget, InputTokens)
  {
    assert ChildSum(runs, 0, InputTokens, 1) == ChildSum(runs, 0, InputTokens, 0);
  }

  lemma RootReports(start: Step, one: Step, b: Budget)
    requires FitsSchema(b) && start == StartRoot("o", "a", "", Plain(""), b) && one == Report(0, ONE_TOKEN)
    ensures Next(Next([], start), one) == [ROOT.(budget := b)]
  {
    assert Next([], start) == [ROOT.(budget := b, usage := UNREPORTED)];
  }

  lemma Overspent(runs: Runs, s: Step, p: RunId, d: Dimension)
    requires p < |runs| && !IsTerminal(runs[p].status) && s.Report? && s.id == p
    requires ChildSum(runs, p, d, |runs|) + Used(runs[p].usage, d) + Used(s.delta, d) > Amount(runs[p].budget, d)
    ensures p < |Next(runs, s)| && !Fits(Next(runs, s), p, d)
  {
    StepMovesUsage(runs, s, p, d);
  }

  /** Nothing holds a parent back: after these steps, whatever more it reports is its child's share. */
  lemma ParentMayUseItsChildrensShare(start: Step, one: Step, spawn: Step, more: Step)
    requires MAX_DEPTH > 0
    requires start == StartRoot("o", "a", "", Plain(""), TEN_TURNS) && one == Report(0, ONE_TOKEN)
    requires spawn == SpawnChild(map[("o", "a") := Profile({}, {})], FOR_A_CHILD)
    requires more.Report? && more.id == 0 && Used(more.delta, InputTokens) > 0.0
    ensures After([start, one, spawn, more]) != [] && !Fits(After([start, one, spawn, more]), 0, InputTokens)
  {
    FourSteps([], start, one, spawn, more);
    RootReports(start, one, TEN_TURNS);
    ChildOfRoot(spawn.profiles);
    var runs := [ROOT, ITS_CHILD];
    NothingLeft(runs);
    Overspent(runs, more, 0, InputTokens);
  }

  // ---- half turns

  const ONE_TURN := Budget(1.0, 0.0, 100.0, 100.0, 0.0, 100.0, 100.0, 100.0)
  const LONE := ROOT.(budget := ONE_TURN)

  lemma LoneMaySpawn(runs: Runs, profiles: Profiles)
    requires MAX_DEPTH > 0 && runs == [LONE] && profiles == map[("o", "a") := Profile({}, {})]
    ensures MaySpawn(runs, profiles, 0, "a") && LevelCount(runs, 0, 1, 1) == 0
  {
    var a := Allocated(ChildrenOf(runs, 0, 1));
    assert ChildrenOf(runs, 0, 1) == [] && a == NOTHING;
    CountIsChildren(runs, 0, 1);
  }

  lemma TwoStepsFirst(runs: Runs, a: Step, b: Step, more: seq<Step>)
    ensures AfterFrom(runs, [a, b] + more) == AfterFrom(Next(Next(runs, a), b), more)
  {
    var steps := [a, b] + more;
    assert steps[1..] == [b] + more && steps[1..][1..] == more;
    assert AfterFrom(runs, steps) == AfterFrom(Next(runs, a), steps[1..]);
    assert AfterFrom(Next(runs, a), steps[1..]) == AfterFrom(Next(Next(runs, a), b), steps[1..][1..]);
  }

  lemma LoneIsSound(none: Runs, start: Step, one: Step)
    requires none == [] && start == StartRoot("o", "a", "", Plain(""), ONE_TURN) && one == Report(0, ONE_TOKEN)
    ensures Next(Next(none, start), one) == [LONE] && Sound(Next(Next(none, start), one))
  {
    RootReports(start, one, ONE_TURN);
    assert Sound(none);
    StepKeepsSound(none, start);
    StepKeepsSound(Next(none, start), one);
  }

  lemma BudgetStays(runs: Runs, steps: seq<Step>, p: RunId)
    requires p < |runs|
    ensures p < |AfterFrom(runs, steps)| && AfterFrom(runs, steps)[p].budget == runs[p].budget
  {
    StepsExtend(runs, steps);
    assert AfterFrom(runs, steps)[..|runs|][p] == AfterFrom(runs, steps)[p];
  }

  lemma TwoChildrenOfLone(runs: Runs, profiles: Profiles) returns (spawns: seq<Step>)
    requires MAX_DEPTH > 0 && profiles == map[("o", "a") := Profile({}, {})] && runs == [LONE] && Sound(runs)
    ensures
      var all := AfterFrom(runs, spawns);
      |all| > 0 && LevelCount(all, 0, 1, |all|) == 2 && all[0].budget.maxTurns == 1.0
  {
    LoneMaySpawn(runs, profiles);
    spawns := AnyNumberOfChildren(runs, profiles, 0, "a", 2);
    BudgetStays(runs, spawns, 0);
  }

  /** A run of one turn with two children, of half a turn and a quarter. */
  lemma TwoChildrenOfOneTurn(none: Runs, start: Step, one: Step, profiles: Profiles) returns (spawns: seq<Step>)
    requires MAX_DEPTH > 0 && profiles == map[("o", "a") := Profile({}, {})]
    requires none == [] && start == StartRoot("o", "a", "", Plain(""), ONE_TURN) && one == Report(0, ONE_TOKEN)
    ensures
      var runs := AfterFrom(none, [start, one] + spawns);
      |runs| > 0 && LevelCount(runs, 0, 1, |runs|) == 2 && runs[0].budget.maxTurns == 1.0
  {
    LoneIsSound(none, start, one);
    spawns := TwoChildrenOfLone(Next(Next(none, start), one), profiles);
    TwoStepsFirst(none, start, one, spawns);
  }

  // ---- a repeated request

  lemma ExtendsIsTransitive(a: Runs, b: Runs, c: Runs)
    requires Extends(a, b) && Extends(b, c)
    ensures Extends(a, c)
  {
    forall i | 0 <= i < |a| ensures c[i] == a[i].(usage := c[i].usage, status := c[i].status) {
      assert b[..|a|][i] == a[i].(usage := b[i].usage, status := b[i].status);
      assert c[..|b|][i] == b[i].(usage := c[i].usage, status := c[i].status);
    }
  }

  lemma {:induction false} StepsExtend(runs: Runs, steps: seq<Step>)
    ensures Extends(runs, AfterFrom(runs, steps))
    decreases |steps|
  {
    if steps != [] {
      var next := Next(runs, steps[0]);
      StepExtends(runs, steps[0]);
      StepsExtend(next, steps[1..]);
      ExtendsIsTransitive(runs, next, AfterFrom(next, steps[1..]));
    }
  }

  /** A store that still holds a child made for this request answers with that child. */
  lemma HeldChildIsReplayed(runs: Runs, profiles: Profiles, r: Request, id: RunId)
    requires Sound(runs) && IsChild(runs, id, r.parentId) && Authority(runs, profiles, r).None?
    requires runs[id].key == Subagent(r.parentId, r.key) && Matches(runs[id], r)
    ensures Decide(runs, profiles, r) == Ok(Replayed(id)) && Spawn(runs, profiles, r) == runs
  {
    var found := FindReplay(runs, r.parentId, Subagent(r.parentId, r.key), 0);
    assert WellPlaced(runs, found.value) && WellPlaced(runs, id);
  }

  /**
   Once a spawn has created a child, the same request made at any later time is answered with
   that child and stores nothing, as long as the parent may still spawn at all.
   */
  lemma SpawnIsIdempotent(before: seq<Step>, profiles: Profiles, r: Request, later: seq<Step>, profilesLater: Profiles)
    requires Decide(After(before), profiles, r).Ok? && Decide(After(before), profiles, r).value.Created?
    ensures
      var created := Spawn(After(before), profiles, r);
      var now := AfterFrom(created, later);
      Authority(now, profilesLater, r).None? ==>
        Decide(now, profilesLater, r) == Ok(Replayed(|created| - 1)) && Spawn(now, profilesLater, r) == now
  {
    var created := Spawn(After(before), profiles, r);
    var now := AfterFrom(created, later);
    var id := |created| - 1;
    StepsKeepSound([], before);
    SpawnKeepsSound(After(before), profiles, r);
    StepsKeepSound(created, later);
    StepsExtend(created, later);
    assert now[..|created|][id] == now[id] && now[..|created|][r.parentId] == now[r.parentId];
    if Authority(now, profilesLater, r).None? {
      HeldChildIsReplayed(now, profilesLater, r, id);
    }
  }
}
