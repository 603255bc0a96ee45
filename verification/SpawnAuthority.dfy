/**
 Who may spawn what: the conditions under which a subagent's run is stored, in terms of the stored runs,
 the agents' profiles and what was asked, and what they make of a whole tree of runs.
 */
module SpawnAuthority {
  import opened Wrappers
  import B = RunBudgets
  import opened RunStates
  import opened ChildBudgets

  /** The agent is configured, and has no tool or capability that the parent's agent, where configured, has not. */
  predicate MayHave(profiles: Profiles, owner: string, parent: string, agent: string) {
    && (owner, agent) in profiles
    && ((owner, parent) in profiles ==>
          && profiles[(owner, agent)].allowedTools <= profiles[(owner, parent)].allowedTools
          && profiles[(owner, agent)].modelCapabilities <= profiles[(owner, parent)].modelCapabilities)
  }

  /** The parent is not over and not too deep, and may have this agent work for it. */
  predicate Entitled(runs: Runs, profiles: Profiles, r: Request) {
    && r.parentId < |runs| && !IsTerminal(runs[r.parentId].status) && runs[r.parentId].depth < MAX_DEPTH
    && MayHave(profiles, runs[r.parentId].owner, runs[r.parentId].agent, r.agent)
  }

  lemma EntitledIff(runs: Runs, profiles: Profiles, r: Request)
    ensures Authority(runs, profiles, r).None? <==> Entitled(runs, profiles, r)
  {}

  /** Whenever a child is stored, its parent was entitled to it; nothing else is stored with it. */
  lemma StoredIsEntitled(runs: Runs, profiles: Profiles, r: Request)
    requires Spawn(runs, profiles, r) != runs
    ensures
      var all, p := Spawn(runs, profiles, r), r.parentId;
      && p < |runs| && !IsTerminal(runs[p].status) && runs[p].depth < MAX_DEPTH
      && MayHave(profiles, runs[p].owner, runs[p].agent, r.agent)
      && |all| == |runs| + 1 && all[..|runs|] == runs
      && all[|runs|].parent == Some(p) && all[|runs|].agent == r.agent && all[|runs|].input == r.input
      && all[|runs|].owner == runs[p].owner && all[|runs|].depth == runs[p].depth + 1
      && all[|runs|].usage == B.UNREPORTED && all[|runs|].status == Accepted
  {}

  // ---- over a whole tree

  predicate FixedProfiles(steps: seq<Step>, profiles: Profiles) {
    forall s | s in steps && s.SpawnChild? :: s.profiles == profiles
  }

  ghost predicate AllEntitled(runs: Runs, profiles: Profiles) {
    forall i: RunId | i < |runs| && runs[i].parent.Some? ::
      runs[i].parent.value < i && MayHave(profiles, runs[i].owner, runs[runs[i].parent.value].agent, runs[i].agent)
  }

  lemma StepKeepsEntitled(runs: Runs, s: Step, profiles: Profiles)
    requires AllEntitled(runs, profiles) && (s.SpawnChild? ==> s.profiles == profiles)
    ensures AllEntitled(Next(runs, s), profiles)
  {
    if s.SpawnChild? && Next(runs, s) != runs {
      StoredIsEntitled(runs, profiles, s.request);
      var all := Next(runs, s);
      forall i: RunId | i < |all| && all[i].parent.Some?
        ensures all[i].parent.value < i && MayHave(profiles, all[i].owner, all[all[i].parent.value].agent, all[i].agent)
      {
        if i < |runs| { assert all[..|runs|][i] == runs[i] && all[..|runs|][runs[i].parent.value] == runs[runs[i].parent.value]; }
        else { assert all[..|runs|][s.request.parentId] == runs[s.request.parentId]; }
      }
    }
  }

  lemma {:induction false} StepsKeepEntitled(runs: Runs, steps: seq<Step>, profiles: Profiles)
    requires AllEntitled(runs, profiles) && FixedProfiles(steps, profiles)
    ensures AllEntitled(AfterFrom(runs, steps), profiles)
    decreases |steps|
  {
    if steps != [] {
      StepKeepsEntitled(runs, steps[0], profiles);
      assert steps == [steps[0]] + steps[1..];
      StepsKeepEntitled(Next(runs, steps[0]), steps[1..], profiles);
    }
  }

  lemma {:induction false} DescendantMayHave(runs: Runs, profiles: Profiles, r: RunId, i: RunId, k: nat)
    requires (forall j: RunId | j < |runs| :: WellPlaced(runs, j)) && AllEntitled(runs, profiles)
    requires At(runs, r, i, k) && k > 0
    ensures r < |runs| && runs[i].owner == runs[r].owner && MayHave(profiles, runs[r].owner, runs[r].agent, runs[i].agent)
  {
    var parent := runs[i].parent.value;
    assert WellPlaced(runs, i) && Descends(runs[i], runs[parent]);
    if k > 1 { DescendantMayHave(runs, profiles, r, parent, k - 1); }
  }

  /**
   In every history with the same profiles throughout: whatever descends from a run, at any depth, is an
   agent that is configured, and has no tool or capability that the run's own agent, where configured, has not.
   */
  lemma DescendantsAddNothing(steps: seq<Step>, profiles: Profiles, r: RunId, i: RunId, k: nat)
    requires FixedProfiles(steps, profiles) && At(After(steps), r, i, k) && k > 0
    ensures
      var runs := After(steps);
      && r < |runs| && i < |runs| && (runs[r].owner, runs[i].agent) in profiles
      && ((runs[r].owner, runs[r].agent) in profiles ==>
            var mine, theirs := profiles[(runs[r].owner, runs[r].agent)], profiles[(runs[r].owner, runs[i].agent)];
            theirs.allowedTools <= mine.allowedTools && theirs.modelCapabilities <= mine.modelCapabilities)
  {
    var none: Runs := [];
    StepsKeepSound(none, steps);
    StepsKeepEntitled(none, steps, profiles);
    DescendantMayHave(After(steps), profiles, r, i, k);
  }

  // ---- exactly when a child is stored, and what it is given

  /** What is left of a parent's amount beside its children's and, where it counts, its own reported usage. */
  function Spare(runs: Runs, p: RunId, d: Dimension): real
    requires p < |runs|
  {
    if Metered(d) && !Known(runs[p].usage, d) then 0.0
    else
      Max(0.0, Amount(runs[p].budget, d) - ChildSum(runs, p, d, |runs|) - if Metered(d) then Used(runs[p].usage, d) else 0.0)
  }

  function Asked(b: PartialBudget, d: Dimension): Option<real> {
    match d
    case Turns => b.maxTurns
    case ToolCalls => b.maxToolCalls
    case InputTokens => b.maxInputTokens
    case OutputTokens => b.maxOutputTokens
    case Cost => b.maxCostUsd
  }

  /** What a child gets at most where nothing is asked for. */
  function Usual(d: Dimension): real {
    match d
    case Turns => 4.0
    case ToolCalls => 8.0
    case InputTokens => 64_000.0
    case OutputTokens => 16_000.0
    case Cost => 5.0
  }

  /** A child does nothing without turns and tokens. */
  predicate Needed(d: Dimension) { d.Turns? || d.InputTokens? || d.OutputTokens? }

  /** What is asked for is there, and is not nothing where something is needed; asking for nothing takes what is there. */
  predicate AmountFits(asked: Option<real>, spare: real, needed: bool) {
    match asked
    case None => needed ==> spare > 0.0
    case Some(amount) => amount <= spare && amount >= 0.0 && (needed ==> amount > 0.0)
  }

  predicate TimeoutFits(asked: Option<real>, parents: real) { asked.Some? ==> 0.0 < asked.value <= parents }

  /** Everything that is asked for fits. */
  ghost predicate AskFits(runs: Runs, r: Request)
    requires r.parentId < |runs|
  {
    var b := runs[r.parentId].budget;
    && (forall d :: AmountFits(Asked(r.budget, d), Spare(runs, r.parentId, d), Needed(d)))
    && TimeoutFits(r.budget.totalTimeoutMs, b.totalTimeoutMs)
    && TimeoutFits(r.budget.modelIdleTimeoutMs, b.modelIdleTimeoutMs)
    && TimeoutFits(r.budget.commandTimeoutMs, b.commandTimeoutMs)
  }

  lemma SpareIsRemaining(runs: Runs, p: RunId, d: Dimension)
    requires p < |runs|
    ensures Amount(Remaining(runs[p], ChildrenOf(runs, p, |runs|)), d) == Spare(runs, p, d)
  {
    AllocatedIsChildSum(runs, p, d, |runs|);
    RemainingIs(runs[p], ChildrenOf(runs, p, |runs|), d);
  }

  lemma BoundedIff(asked: PartialBudget, parent: Run, left: B.Budget)
    requires Sane(parent.budget) && forall d :: Amount(left, d) >= 0.0
    ensures Bounded(asked, parent, left).Ok? <==>
      && AmountFits(asked.maxTurns, left.maxTurns, true) && AmountFits(asked.maxToolCalls, left.maxToolCalls, false)
      && AmountFits(asked.maxInputTokens, left.maxInputTokens, true)
      && AmountFits(asked.maxOutputTokens, left.maxOutputTokens, true) && AmountFits(asked.maxCostUsd, left.maxCostUsd, false)
      && TimeoutFits(asked.totalTimeoutMs, parent.budget.totalTimeoutMs)
      && TimeoutFits(asked.modelIdleTimeoutMs, parent.budget.modelIdleTimeoutMs)
      && TimeoutFits(asked.commandTimeoutMs, parent.budget.commandTimeoutMs)
  {
    assert Amount(left, Turns) >= 0.0 && Amount(left, ToolCalls) >= 0.0 && Amount(left, InputTokens) >= 0.0;
    assert Amount(left, OutputTokens) >= 0.0 && Amount(left, Cost) >= 0.0;
  }

  lemma EveryDimension(b: PartialBudget, left: B.Budget)
    ensures (forall d :: AmountFits(Asked(b, d), Amount(left, d), Needed(d))) <==>
      && AmountFits(b.maxTurns, left.maxTurns, true) && AmountFits(b.maxToolCalls, left.maxToolCalls, false)
      && AmountFits(b.maxInputTokens, left.maxInputTokens, true)
      && AmountFits(b.maxOutputTokens, left.maxOutputTokens, true) && AmountFits(b.maxCostUsd, left.maxCostUsd, false)
  {
    if forall d :: AmountFits(Asked(b, d), Amount(left, d), Needed(d)) {
      assert AmountFits(Asked(b, Turns), Amount(left, Turns), Needed(Turns));
      assert AmountFits(Asked(b, ToolCalls), Amount(left, ToolCalls), Needed(ToolCalls));
      assert AmountFits(Asked(b, InputTokens), Amount(left, InputTokens), Needed(InputTokens));
      assert AmountFits(Asked(b, OutputTokens), Amount(left, OutputTokens), Needed(OutputTokens));
      assert AmountFits(Asked(b, Cost), Amount(left, Cost), Needed(Cost));
    }
  }

  /** A budget is granted exactly when everything that is asked for fits what is left. */
  lemma GrantedIffFits(runs: Runs, r: Request)
    requires r.parentId < |runs| && Sane(runs[r.parentId].budget)
    ensures Granted(runs, r).Ok? <==> AskFits(runs, r)
  {
    var parent, left := runs[r.parentId], Remaining(runs[r.parentId], ChildrenOf(runs, r.parentId, |runs|));
    forall d ensures Amount(left, d) == Spare(runs, r.parentId, d) >= 0.0 { SpareIsRemaining(runs, r.parentId, d); }
    BoundedIff(r.budget, parent, left);
    EveryDimension(r.budget, left);
  }

  /** What is granted: as asked, or else the usual amount as far as it is there, and the parent's own timeouts. */
  lemma GrantedAmounts(runs: Runs, r: Request, d: Dimension)
    requires r.parentId < |runs| && Granted(runs, r).Ok?
    ensures
      var b, parents, asked := Granted(runs, r).value, runs[r.parentId].budget, Asked(r.budget, d);
      && Amount(b, d) == (if asked.Some? then asked.value else Min(Usual(d), Spare(runs, r.parentId, d)))
      && b.totalTimeoutMs == OrElse(r.budget.totalTimeoutMs, Min(300_000.0, parents.totalTimeoutMs))
      && b.modelIdleTimeoutMs == OrElse(r.budget.modelIdleTimeoutMs, parents.modelIdleTimeoutMs)
      && b.commandTimeoutMs == OrElse(r.budget.commandTimeoutMs, parents.commandTimeoutMs)
  {
    SpareIsRemaining(runs, r.parentId, d);
  }

  /** The owner has a run under the key that this request's child would carry. */
  predicate HasRunFor(runs: Runs, r: Request)
    requires r.parentId < |runs|
  {
    exists i: RunId :: i < |runs| && runs[i].owner == runs[r.parentId].owner && runs[i].key == Subagent(r.parentId, r.key)
  }

  lemma NoReplayWithoutRun(runs: Runs, r: Request)
    requires Sound(runs) && r.parentId < |runs|
    ensures FindReplay(runs, r.parentId, Subagent(r.parentId, r.key), 0).Some? ==> HasRunFor(runs, r)
    ensures KeyTaken(runs, runs[r.parentId].owner, Subagent(r.parentId, r.key)) <==> HasRunFor(runs, r)
  {
    var found := FindReplay(runs, r.parentId, Subagent(r.parentId, r.key), 0);
    if found.Some? { assert WellPlaced(runs, found.value) && Descends(runs[found.value], runs[r.parentId]); }
  }

  /**
   A child is created exactly when its parent is entitled to it, its key is new to the owner, and everything
   that is asked for fits what is left.
   */
  lemma CreatedIff(steps: seq<Step>, profiles: Profiles, r: Request)
    ensures
      var runs := After(steps);
      Decide(runs, profiles, r) == Ok(Created(|runs|)) <==>
        Entitled(runs, profiles, r) && !HasRunFor(runs, r) && AskFits(runs, r)
    ensures Spawn(After(steps), profiles, r) != After(steps) <==> Decide(After(steps), profiles, r) == Ok(Created(|After(steps)|))
  {
    var runs := After(steps);
    StepsKeepSound([], steps);
    EntitledIff(runs, profiles, r);
    if r.parentId < |runs| {
      assert WellPlaced(runs, r.parentId);
      NoReplayWithoutRun(runs, r);
      GrantedIffFits(runs, r);
    }
  }

  // ---- what else is answered

  /** The child answers the request: same agent, same input, and every amount that is asked for as it was given. */
  predicate Answers(child: Run, r: Request) {
    && child.agent == r.agent && child.input == r.input
    && (forall d :: Asked(r.budget, d).Some? ==> Asked(r.budget, d).value == Amount(child.budget, d))
    && (r.budget.totalTimeoutMs.Some? ==> r.budget.totalTimeoutMs.value == child.budget.totalTimeoutMs)
    && (r.budget.modelIdleTimeoutMs.Some? ==> r.budget.modelIdleTimeoutMs.value == child.budget.modelIdleTimeoutMs)
    && (r.budget.commandTimeoutMs.Some? ==> r.budget.commandTimeoutMs.value == child.budget.commandTimeoutMs)
  }

  lemma AnswersIff(child: Run, r: Request)
    ensures Matches(child, r) <==> Answers(child, r)
  {
    var b, given := r.budget, child.budget;
    if Answers(child, r) {
      assert Asked(b, Turns).Some? ==> Asked(b, Turns).value == Amount(given, Turns);
      assert Asked(b, ToolCalls).Some? ==> Asked(b, ToolCalls).value == Amount(given, ToolCalls);
      assert Asked(b, InputTokens).Some? ==> Asked(b, InputTokens).value == Amount(given, InputTokens);
      assert Asked(b, OutputTokens).Some? ==> Asked(b, OutputTokens).value == Amount(given, OutputTokens);
      assert Asked(b, Cost).Some? ==> Asked(b, Cost).value == Amount(given, Cost);
    }
  }

  /** Run `i` is the parent's child under the request's key. */
  predicate IsChildFor(runs: Runs, r: Request, i: RunId) {
    i < |runs| && runs[i].parent == Some(r.parentId) && runs[i].key == Subagent(r.parentId, r.key)
  }

  /** A parent has one child under a key at most. */
  lemma OneChildFor(runs: Runs, r: Request, i: RunId, j: RunId)
    requires Sound(runs) && IsChildFor(runs, r, i) && IsChildFor(runs, r, j)
    ensures i == j
  {
    assert WellPlaced(runs, i) && WellPlaced(runs, j);
    assert Descends(runs[i], runs[r.parentId]) && Descends(runs[j], runs[r.parentId]);
  }

  lemma ReplayFinds(runs: Runs, r: Request, i: RunId)
    requires Sound(runs)
    ensures FindReplay(runs, r.parentId, Subagent(r.parentId, r.key), 0) == Some(i) <==> IsChildFor(runs, r, i)
  {
    var found := FindReplay(runs, r.parentId, Subagent(r.parentId, r.key), 0);
    if IsChildFor(runs, r, i) {
      assert IsChild(runs, i, r.parentId);
      OneChildFor(runs, r, i, found.value);
    }
  }

  /** A child that is there is the answer exactly when the parent is entitled to it and it answers the request. */
  lemma ReplayedIff(steps: seq<Step>, profiles: Profiles, r: Request, i: RunId)
    ensures
      var runs := After(steps);
      Decide(runs, profiles, r) == Ok(Replayed(i)) <==>
        Entitled(runs, profiles, r) && IsChildFor(runs, r, i) && Answers(runs[i], r)
  {
    var runs := After(steps);
    AfterIsSound(steps);
    EntitledIff(runs, profiles, r);
    ReplayFinds(runs, r, i);
    if i < |runs| { AnswersIff(runs[i], r); }
  }

  ghost predicate HasChildFor(runs: Runs, r: Request) { exists i: RunId :: IsChildFor(runs, r, i) }

  lemma NoReplayIff(runs: Runs, r: Request)
    requires Sound(runs)
    ensures FindReplay(runs, r.parentId, Subagent(r.parentId, r.key), 0).Some? <==> HasChildFor(runs, r)
  {
    var found := FindReplay(runs, r.parentId, Subagent(r.parentId, r.key), 0);
    if found.Some? {
      assert IsChildFor(runs, r, found.value);
    }
    if HasChildFor(runs, r) {
      var i: RunId :| IsChildFor(runs, r, i);
      ReplayFinds(runs, r, i);
    }
  }

  /** Why a parent is not entitled. */
  predicate NotEntitledBy(runs: Runs, profiles: Profiles, r: Request, error: SpawnError) {
    var p := r.parentId;
    match error
    case ParentUnavailable => p >= |runs| || IsTerminal(runs[p].status)
    case NestingLimit => p < |runs| && runs[p].depth >= MAX_DEPTH
    case ProfileUnavailable => p < |runs| && (runs[p].owner, r.agent) !in profiles
    case ToolsExceedParent =>
      && p < |runs| && (runs[p].owner, r.agent) in profiles && (runs[p].owner, runs[p].agent) in profiles
      && exists tool :: tool in profiles[(runs[p].owner, r.agent)].allowedTools
                     && tool !in profiles[(runs[p].owner, runs[p].agent)].allowedTools
    case CapabilitiesExceedParent =>
      && p < |runs| && (runs[p].owner, r.agent) in profiles && (runs[p].owner, runs[p].agent) in profiles
      && exists c :: c in profiles[(runs[p].owner, r.agent)].modelCapabilities
                  && c !in profiles[(runs[p].owner, runs[p].agent)].modelCapabilities
    case _ => false
  }

  lemma AuthorityFailsBecause(runs: Runs, profiles: Profiles, r: Request)
    requires Authority(runs, profiles, r).Some?
    ensures NotEntitledBy(runs, profiles, r, Authority(runs, profiles, r).value)
  {}

  /** No child answers under a key that has been taken. */
  lemma ReusedMeans(runs: Runs, r: Request, i: RunId)
    requires Sound(runs) && IsChildFor(runs, r, i)
    requires
      var replay := FindReplay(runs, r.parentId, Subagent(r.parentId, r.key), 0);
      replay.Some? ==> !Matches(runs[replay.value], r)
    ensures !Answers(runs[i], r)
  {
    ReplayFinds(runs, r, i);
    AnswersIff(runs[i], r);
  }

  /** Which error a refusal gives. */
  lemma RefusedBecause(steps: seq<Step>, profiles: Profiles, r: Request)
    requires Decide(After(steps), profiles, r).Err?
    ensures
      var runs, error := After(steps), Decide(After(steps), profiles, r).error;
      match error
      case BudgetExceeded => Entitled(runs, profiles, r) && !HasChildFor(runs, r) && !AskFits(runs, r)
      case KeyReused =>
        && Entitled(runs, profiles, r) && HasRunFor(runs, r)
        && forall i: RunId | IsChildFor(runs, r, i) :: !Answers(runs[i], r)
      case _ => NotEntitledBy(runs, profiles, r, error)
  {
    hide Entitled, NotEntitledBy, Authority, AskFits, HasChildFor, Answers, Matches, After, Sound, Granted;
    var runs := After(steps);
    AfterIsSound(steps);
    EntitledIff(runs, profiles, r);
    if Authority(runs, profiles, r).Some? {
      AuthorityFailsBecause(runs, profiles, r);
    } else {
      EntitledIsThere(runs, profiles, r);
      NotGrantedIsExceeded(runs, r);
      GrantedIffFits(runs, r);
      NoReplayIff(runs, r);
      NoReplayWithoutRun(runs, r);
      if Decide(runs, profiles, r).error.KeyReused? {
        forall i: RunId | IsChildFor(runs, r, i) ensures !Answers(runs[i], r) { ReusedMeans(runs, r, i); }
      }
    }
  }

  lemma AfterIsSound(steps: seq<Step>)
    ensures Sound(After(steps))
  {
    StepsKeepSound([], steps);
  }

  lemma NotGrantedIsExceeded(runs: Runs, r: Request)
    requires r.parentId < |runs|
    ensures Granted(runs, r).Err? ==> Granted(runs, r).error == BudgetExceeded
  {}

  lemma EntitledIsThere(runs: Runs, profiles: Profiles, r: Request)
    requires Sound(runs) && Entitled(runs, profiles, r)
    ensures r.parentId < |runs| && Sane(runs[r.parentId].budget)
  {
    assert WellPlaced(runs, r.parentId);
  }

  // ---- the other steps

  /** Usage is added to a run that is not over, and to no other. */
  lemma ReportedIsAdded(steps: seq<Step>, id: RunId, delta: B.Usage, d: Dimension)
    requires id < |After(steps)|
    ensures
      var runs, next := After(steps), Next(After(steps), Report(id, delta));
      if IsTerminal(runs[id].status) then next == runs
      else
        && |next| == |runs| && Used(next[id].usage, d) == Used(runs[id].usage, d) + Used(delta, d)
        && next[id] == runs[id].(usage := next[id].usage)
        && forall i: RunId | i < |runs| && i != id :: next[i] == runs[i]
  {
    if !IsTerminal(After(steps)[id].status) { UsageAddsUp(After(steps)[id].usage, delta, d); }
  }

  /** A run's status moves as the table allows; one that is over stays over. */
  lemma StatusMoves(steps: seq<Step>, id: RunId, status: RunStatus)
    requires id < |After(steps)|
    ensures
      var runs, next := After(steps), Next(After(steps), Progress(id, status));
      if MayMove(runs[id].status, status) then next == runs[id := runs[id].(status := status)] else next == runs
  {}

  /** A root is stored exactly when its key is new to its owner and its budget is what the schema lets in. */
  lemma RootIsStoredIff(steps: seq<Step>, owner: string, agent: string, input: string, key: Key, budget: B.Budget)
    ensures
      var runs, next := After(steps), Next(After(steps), StartRoot(owner, agent, input, key, budget));
      if FitsSchema(budget) && forall i: RunId | i < |runs| && runs[i].owner == owner :: runs[i].key != key
      then next == runs + [Run(owner, agent, input, key, None, 0, budget, B.UNREPORTED, Accepted)] else next == runs
  {}
}
