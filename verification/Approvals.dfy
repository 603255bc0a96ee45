/**
 Tool approvals: a record bound to one run, call, canonical arguments, policy and route, resolved
 by whichever of user, timer, abort or shutdown comes first. One step stands for one stretch of
 code without an await, or one transaction of the store.
 */
module Approvals {
  import opened Wrappers
  import opened JsonText
  import opened JsValues
  import opened RunKeys
  import CanonicalJson

  type ApprovalId(==, !new) = nat
  type RunId(==, !new) = nat

  /** A tool call as the digests see it: its arguments as canonical text, if they are JSON at all. */
  datatype Call = Call(id: Text, name: Text, arguments: Option<Text>)

  function CallOf(id: Text, name: Text, arguments: JsValue): Call {
    var text := CanonicalJson.Print(arguments);
    Call(id, name, if text.Ok? then Some(text.value) else None)
  }

  /** The run's identity, the agent profile's version and the route, as they are at some moment. */
  datatype Circumstances = Circumstances(policy: Option<nat>, route: Text)

  datatype RunInfo = RunInfo(owner: Owner, workspaceId: Text, terminal: bool)

  /** What the execution digest covers. Digests are taken to be injective, so this stands for one. */
  datatype Binding = Binding(
    runId: RunId, callId: Text, name: Text, arguments: Text, owner: Owner, workspaceId: Text,
    policy: nat, route: Text, expiresAt: int)

  datatype Status = Pending | Approved | Denied | Expired

  datatype Record = Record(bound: Binding, status: Status)

  /** An `approval.resolved` event, with the store's clock. */
  datatype Resolution = Resolution(id: ApprovalId, status: Status, at: int)

  /** A tool execution that went ahead under an approval. */
  datatype Execution = Execution(id: ApprovalId, runId: RunId, call: Call, at: int, given: Circumstances)

  /**
   Where the code stands that asked for an approval: its promise is open, has resolved to a value that
   the code has not seen yet, or the code has gone on, to the execution or to an error.
   */
  datatype Continuation = Waiting | Woken(granted: bool) | Finished(executed: bool)

  datatype Desk = Desk(
    runs: map<RunId, RunInfo>,
    asked: map<ApprovalId, Call>,
    records: map<ApprovalId, Record>,
    resolutions: seq<Resolution>,
    continuations: map<ApprovalId, Continuation>,
    executed: seq<Execution>)

  datatype Step =
    | RunCreated(run: RunId, info: RunInfo)
    | RunEnded(run: RunId)
    | Ask(id: ApprovalId, run: RunId, call: Call, now: int, timeoutMs: int, given: Circumstances)
    | UserResolves(id: ApprovalId, approved: bool, now: int, storeNow: int, given: Circumstances)
    | TimerFires(id: ApprovalId, storeNow: int)
    | RunAborts(id: ApprovalId, storeNow: int)
    | ShutdownWakes(id: ApprovalId)
    | Continue(id: ApprovalId, run: RunId, call: Call, now: int, given: Circumstances)

  // ---- the store

  /** `#resolveApprovalWithinTransaction`: the condition of the update. */
  predicate MayResolve(d: Desk, id: ApprovalId, status: Status, expected: Binding, at: int) {
    && id in d.records && d.records[id].status.Pending? && d.records[id].bound == expected
    && (status.Approved? ==> d.records[id].bound.expiresAt > at)
    && d.records[id].bound.runId in d.runs && !d.runs[d.records[id].bound.runId].terminal
  }

  /** `resolveApprovalAndAppendEvent`. */
  function Resolved(d: Desk, id: ApprovalId, status: Status, expected: Binding, at: int): Desk {
    if !MayResolve(d, id, status, expected, at) then d
    else
      d.(records := d.records[id := d.records[id].(status := status)],
         resolutions := d.resolutions + [Resolution(id, status, at)])
  }

  // ---- the service

  /** `approvalExecutionDigest` over a call made now; `None` when its arguments are not JSON or the profile is gone. */
  function BindingOf(run: RunId, info: RunInfo, call: Call, given: Circumstances, expiresAt: int): Option<Binding> {
    if call.arguments.None? || given.policy.None? then None
    else
      Some(Binding(run, call.id, call.name, call.arguments.value, info.owner, info.workspaceId,
                   given.policy.value, given.route, expiresAt))
  }

  /** `#approvalBindingIsCurrent`, for a given call or for the recorded one. */
  predicate IsCurrent(d: Desk, record: Record, call: Option<Call>, given: Circumstances) {
    var b := record.bound;
    && b.runId in d.runs && given.policy.Some?
    && b.owner == d.runs[b.runId].owner && b.workspaceId == d.runs[b.runId].workspaceId
    && b.policy == given.policy.value && b.route == given.route
    && (call.Some? ==> BindingOf(b.runId, d.runs[b.runId], call.value, given, b.expiresAt) == Some(b))
  }

  predicate IsWaiting(d: Desk, id: ApprovalId) { id in d.continuations && d.continuations[id].Waiting? }

  /** A promise settles once; later settlements change nothing. */
  function Wake(d: Desk, id: ApprovalId, value: bool): Desk {
    if !IsWaiting(d, id) then d else d.(continuations := d.continuations[id := Woken(value)])
  }

  function Asked(d: Desk, id: ApprovalId, call: Call, b: Binding): Desk {
    d.(asked := d.asked[id := call], records := d.records[id := Record(b, Pending)],
       continuations := d.continuations[id := Waiting])
  }

  function AskStep(d: Desk, id: ApprovalId, run: RunId, call: Call, now: int, timeoutMs: int, given: Circumstances): Desk {
    if id in d.records || run !in d.runs then d else
    var b := BindingOf(run, d.runs[run], call, given, now + timeoutMs);
    if b.None? || d.runs[run].terminal then d
    else Asked(d, id, call, b.value)
  }

  /** The status that a user's answer asks the store for. */
  function AnswerTo(d: Desk, record: Record, approved: bool, now: int, given: Circumstances): (s: Status)
    ensures !s.Pending?
  {
    if record.bound.expiresAt <= now then Expired
    else if IsCurrent(d, record, None, given) && approved then Approved
    else Denied
  }

  /** The store's update; an approval that comes too late by the store's clock is tried again as expired. */
  function ResolvedInTime(d: Desk, id: ApprovalId, status: Status, storeNow: int): Desk
    requires id in d.records
  {
    var once := Resolved(d, id, status, d.records[id].bound, storeNow);
    if status.Approved? && once.records[id].status.Pending?
    then Resolved(once, id, Expired, d.records[id].bound, storeNow) else once
  }

  /** `resolveApproval`. */
  function UserStep(d: Desk, id: ApprovalId, approved: bool, now: int, storeNow: int, given: Circumstances): Desk {
    if id !in d.records || !d.records[id].status.Pending? then d else
    var settled := ResolvedInTime(d, id, AnswerTo(d, d.records[id], approved, now, given), storeNow);
    Wake(settled, id, settled.records[id].status.Approved?)
  }

  /** The timer and the abort handler: both live only as long as the promise is open. */
  function GiveUpStep(d: Desk, id: ApprovalId, status: Status, storeNow: int): Desk {
    if !IsWaiting(d, id) || id !in d.records then d
    else Wake(Resolved(d, id, status, d.records[id].bound, storeNow), id, false)
  }

  /** `#assertApprovalExecutable`. */
  predicate IsExecutable(d: Desk, id: ApprovalId, run: RunId, call: Call, now: int, given: Circumstances) {
    && id in d.records && d.records[id].status.Approved? && d.records[id].bound.expiresAt > now
    && d.records[id].bound.runId == run && IsCurrent(d, d.records[id], Some(call), given)
  }

  /**
   The code behind a promise that has resolved goes on: refused, it throws; granted, it checks the
   approval once more and executes the tool, or throws.
   */
  function ContinueStep(d: Desk, id: ApprovalId, run: RunId, call: Call, now: int, given: Circumstances): Desk {
    if id !in d.continuations || !d.continuations[id].Woken? then d
    else if d.continuations[id].granted && IsExecutable(d, id, run, call, now, given) then
      d.(continuations := d.continuations[id := Finished(true)],
         executed := d.executed + [Execution(id, run, call, now, given)])
    else d.(continuations := d.continuations[id := Finished(false)])
  }

  function Next(d: Desk, s: Step): Desk {
    match s
    case RunCreated(run, info) => if run in d.runs then d else d.(runs := d.runs[run := info])
    case RunEnded(run) => if run in d.runs then d.(runs := d.runs[run := d.runs[run].(terminal := true)]) else d
    case Ask(id, run, call, now, timeoutMs, given) => AskStep(d, id, run, call, now, timeoutMs, given)
    case UserResolves(id, approved, now, storeNow, given) => UserStep(d, id, approved, now, storeNow, given)
    case TimerFires(id, storeNow) => GiveUpStep(d, id, Expired, storeNow)
    case RunAborts(id, storeNow) => GiveUpStep(d, id, Denied, storeNow)
    case ShutdownWakes(id) => Wake(d, id, false)
    case Continue(id, run, call, now, given) => ContinueStep(d, id, run, call, now, given)
  }

  const EMPTY := Desk(map[], map[], map[], [], map[], [])

  function AfterFrom(d: Desk, steps: seq<Step>): Desk
    decreases |steps|
  {
    if steps == [] then d else AfterFrom(Next(d, steps[0]), steps[1..])
  }

  function After(steps: seq<Step>): Desk { AfterFrom(EMPTY, steps) }

  // ---- what always holds

  /** A record binds what was asked for. */
  ghost predicate RecordsBindRequests(d: Desk) {
    && d.asked.Keys == d.records.Keys
    && forall id | id in d.records ::
        var b := d.records[id].bound;
        && b.callId == d.asked[id].id && b.name == d.asked[id].name
        && d.asked[id].arguments == Some(b.arguments)
        && b.runId in d.runs
  }

  /** How many resolved events an approval has. */
  function ResolvedEvents(rs: seq<Resolution>, id: ApprovalId): nat {
    if rs == [] then 0
    else ResolvedEvents(rs[..|rs| - 1], id) + if rs[|rs| - 1].id == id then 1 else 0
  }

  /** One resolved event for each record that left PENDING, none for the others. */
  ghost predicate ResolutionsCount(d: Desk) {
    forall id: ApprovalId ::
      ResolvedEvents(d.resolutions, id) == if id in d.records && !d.records[id].status.Pending? then 1 else 0
  }

  ghost predicate ResolutionFits(d: Desk, r: Resolution) {
    && r.id in d.records && d.records[r.id].status == r.status && !r.status.Pending?
    && (r.status.Approved? ==> r.at < d.records[r.id].bound.expiresAt)
  }

  ghost predicate ResolutionsMatch(d: Desk) {
    ResolutionsCount(d) && forall r | r in d.resolutions :: ResolutionFits(d, r)
  }

  ghost predicate WakesMatch(d: Desk) {
    forall id | id in d.continuations ::
      id in d.records && (d.continuations[id] == Woken(true) ==> d.records[id].status.Approved?)
  }

  ghost predicate ExecutionFits(d: Desk, e: Execution) {
    && e.id in d.records && d.records[e.id].status.Approved? && e.runId in d.runs
    && e.at < d.records[e.id].bound.expiresAt
    && BindingOf(e.runId, d.runs[e.runId], e.call, e.given, d.records[e.id].bound.expiresAt) == Some(d.records[e.id].bound)
  }

  /** How many executions went ahead under an approval. */
  function ExecutionsUnder(es: seq<Execution>, id: ApprovalId): nat {
    if es == [] then 0
    else ExecutionsUnder(es[..|es| - 1], id) + if es[|es| - 1].id == id then 1 else 0
  }

  /** The continuations that went on to an execution and the executions are in step. */
  ghost predicate ExecutionsCount(d: Desk) {
    forall id: ApprovalId ::
      ExecutionsUnder(d.executed, id) == if id in d.continuations && d.continuations[id] == Finished(true) then 1 else 0
  }

  ghost predicate ExecutionsFit(d: Desk) {
    ExecutionsCount(d) && forall e | e in d.executed :: ExecutionFits(d, e)
  }

  ghost predicate Inv(d: Desk) {
    RecordsBindRequests(d) && ResolutionsMatch(d) && WakesMatch(d) && ExecutionsFit(d)
  }

  lemma ResolutionsAppended(rs: seq<Resolution>, r: Resolution)
    ensures forall id: ApprovalId ::
      ResolvedEvents(rs + [r], id) == ResolvedEvents(rs, id) + if r.id == id then 1 else 0
  {
    assert (rs + [r])[..|rs|] == rs;
  }

  lemma ResolutionsKept(d: Desk, id: ApprovalId, status: Status, expected: Binding, at: int)
    requires Inv(d) && !status.Pending? && MayResolve(d, id, status, expected, at)
    ensures ResolutionsMatch(Resolved(d, id, status, expected, at))
  {
    var n := Resolved(d, id, status, expected, at);
    ResolutionsAppended(d.resolutions, Resolution(id, status, at));
    forall r | r in n.resolutions ensures ResolutionFits(n, r) {
      if r in d.resolutions { assert ResolutionFits(d, r); }
    }
  }

  lemma StoreResolveKeepsInv(d: Desk, id: ApprovalId, status: Status, expected: Binding, at: int)
    requires Inv(d) && !status.Pending?
    ensures Inv(Resolved(d, id, status, expected, at))
  {
    if MayResolve(d, id, status, expected, at) {
      var n := Resolved(d, id, status, expected, at);
      ResolutionsKept(d, id, status, expected, at);
      assert WakesMatch(n);
      forall e | e in n.executed ensures ExecutionFits(n, e) { assert ExecutionFits(d, e); }
    }
  }

  /** What a step must show, when it resolves and executes nothing. */
  lemma HistoryKept(d: Desk, n: Desk)
    requires ResolutionsMatch(d) && ExecutionsFit(d)
    requires n.resolutions == d.resolutions && n.executed == d.executed
    requires forall id: ApprovalId ::
      (id in d.continuations && d.continuations[id] == Finished(true))
      <==> (id in n.continuations && n.continuations[id] == Finished(true))
    requires forall id | id in d.records :: id in n.records && n.records[id] == d.records[id]
    requires forall id | id in n.records && id !in d.records :: n.records[id].status.Pending?
    requires forall run | run in d.runs ::
      run in n.runs && n.runs[run].owner == d.runs[run].owner && n.runs[run].workspaceId == d.runs[run].workspaceId
    ensures ResolutionsMatch(n) && ExecutionsFit(n)
  {
    forall e | e in n.executed ensures ExecutionFits(n, e) { assert ExecutionFits(d, e); }
    forall r | r in n.resolutions ensures ResolutionFits(n, r) { assert ResolutionFits(d, r); }
    forall id: ApprovalId
      ensures ResolvedEvents(n.resolutions, id) == if id in n.records && !n.records[id].status.Pending? then 1 else 0
    {
      assert ResolvedEvents(d.resolutions, id) == if id in d.records && !d.records[id].status.Pending? then 1 else 0;
    }
    assert ExecutionsCount(n);
  }

  lemma WakeKeepsInv(d: Desk, id: ApprovalId, value: bool)
    requires Inv(d) && (value && IsWaiting(d, id) ==> d.records[id].status.Approved?)
    ensures Inv(Wake(d, id, value))
  {
    var n := Wake(d, id, value);
    HistoryKept(d, n);
    assert WakesMatch(n);
  }

  lemma NewRecordBinds(d: Desk, id: ApprovalId, call: Call, b: Binding)
    requires RecordsBindRequests(d) && WakesMatch(d) && id !in d.records && b.runId in d.runs
    requires b.callId == call.id && b.name == call.name && call.arguments == Some(b.arguments)
    ensures RecordsBindRequests(Asked(d, id, call, b)) && WakesMatch(Asked(d, id, call, b))
  {}

  lemma NewRecordKeepsHistory(d: Desk, id: ApprovalId, call: Call, b: Binding)
    requires ResolutionsMatch(d) && WakesMatch(d) && ExecutionsFit(d) && id !in d.records
    ensures ResolutionsMatch(Asked(d, id, call, b)) && ExecutionsFit(Asked(d, id, call, b))
  {
    assert id !in d.continuations;
    HistoryKept(d, Asked(d, id, call, b));
  }

  lemma NewRecordKeepsInv(d: Desk, id: ApprovalId, call: Call, b: Binding)
    requires Inv(d) && id !in d.records && b.runId in d.runs
    requires b.callId == call.id && b.name == call.name && call.arguments == Some(b.arguments)
    ensures Inv(Asked(d, id, call, b))
  {
    NewRecordBinds(d, id, call, b);
    NewRecordKeepsHistory(d, id, call, b);
  }

  lemma AskKeepsInv(d: Desk, id: ApprovalId, run: RunId, call: Call, now: int, timeoutMs: int, given: Circumstances)
    requires Inv(d)
    ensures Inv(AskStep(d, id, run, call, now, timeoutMs, given))
  {
    if id !in d.records && run in d.runs && !d.runs[run].terminal {
      var b := BindingOf(run, d.runs[run], call, given, now + timeoutMs);
      if b.Some? { NewRecordKeepsInv(d, id, call, b.value); }
    }
  }

  /** Runs come and end; their identity stays. */
  lemma RunsKeepInv(d: Desk, runs: map<RunId, RunInfo>)
    requires Inv(d) && d.runs.Keys <= runs.Keys
    requires forall run | run in d.runs ::
      runs[run].owner == d.runs[run].owner && runs[run].workspaceId == d.runs[run].workspaceId
    ensures Inv(d.(runs := runs))
  {
    HistoryKept(d, d.(runs := runs));
  }

  lemma ExecutionsAppended(es: seq<Execution>, e: Execution)
    ensures forall id: ApprovalId ::
      ExecutionsUnder(es + [e], id) == ExecutionsUnder(es, id) + if e.id == id then 1 else 0
  {
    assert (es + [e])[..|es|] == es;
  }

  lemma ExecutionCounted(d: Desk, e: Execution)
    requires ExecutionsCount(d) && e.id in d.continuations && d.continuations[e.id].Woken?
    ensures ExecutionsCount(
      d.(continuations := d.continuations[e.id := Finished(true)], executed := d.executed + [e]))
  {
    ExecutionsAppended(d.executed, e);
    assert ExecutionsUnder(d.executed, e.id) == 0;
  }

  lemma ExecutionKeepsInv(d: Desk, e: Execution)
    requires Inv(d) && e.id in d.continuations && d.continuations[e.id].Woken?
    requires IsExecutable(d, e.id, e.runId, e.call, e.at, e.given)
    ensures Inv(d.(continuations := d.continuations[e.id := Finished(true)], executed := d.executed + [e]))
  {
    var n := d.(continuations := d.continuations[e.id := Finished(true)], executed := d.executed + [e]);
    ExecutionCounted(d, e);
    forall x | x in n.executed ensures ExecutionFits(n, x) {
      if x in d.executed { assert ExecutionFits(d, x); }
    }
    forall r | r in n.resolutions ensures ResolutionFits(n, r) { assert ResolutionFits(d, r); }
    assert ResolutionsCount(n) by { assert ResolutionsCount(d); }
  }

  lemma RefusalKeepsInv(d: Desk, id: ApprovalId)
    requires Inv(d) && id in d.continuations && d.continuations[id].Woken?
    ensures Inv(d.(continuations := d.continuations[id := Finished(false)]))
  {
    HistoryKept(d, d.(continuations := d.continuations[id := Finished(false)]));
  }

  lemma ContinueKeepsInv(d: Desk, id: ApprovalId, run: RunId, call: Call, now: int, given: Circumstances)
    requires Inv(d)
    ensures Inv(ContinueStep(d, id, run, call, now, given))
  {
    if id in d.continuations && d.continuations[id].Woken? {
      if d.continuations[id].granted && IsExecutable(d, id, run, call, now, given) {
        ExecutionKeepsInv(d, Execution(id, run, call, now, given));
      } else {
        RefusalKeepsInv(d, id);
      }
    }
  }

  lemma StepKeepsInv(d: Desk, s: Step)
    requires Inv(d)
    ensures Inv(Next(d, s))
  {
    match s
    case RunCreated(run, info) => RunsKeepInv(d, Next(d, s).runs);
    case RunEnded(run) => RunsKeepInv(d, Next(d, s).runs);
    case Ask(id, run, call, now, timeoutMs, given) => AskKeepsInv(d, id, run, call, now, timeoutMs, given);
    case UserResolves(id, approved, now, storeNow, given) => UserKeepsInv(d, id, approved, now, storeNow, given);
    case TimerFires(id, storeNow) => GiveUpKeepsInv(d, id, Expired, storeNow);
    case RunAborts(id, storeNow) => GiveUpKeepsInv(d, id, Denied, storeNow);
    case ShutdownWakes(id) => WakeKeepsInv(d, id, false);
    case Continue(id, run, call, now, given) => ContinueKeepsInv(d, id, run, call, now, given);
  }

  lemma InTimeKeepsInv(d: Desk, id: ApprovalId, status: Status, storeNow: int)
    requires Inv(d) && id in d.records && !status.Pending?
    ensures Inv(ResolvedInTime(d, id, status, storeNow))
  {
    var bound := d.records[id].bound;
    StoreResolveKeepsInv(d, id, status, bound, storeNow);
    StoreResolveKeepsInv(Resolved(d, id, status, bound, storeNow), id, Expired, bound, storeNow);
  }

  lemma UserKeepsInv(d: Desk, id: ApprovalId, approved: bool, now: int, storeNow: int, given: Circumstances)
    requires Inv(d)
    ensures Inv(UserStep(d, id, approved, now, storeNow, given))
  {
    if id in d.records && d.records[id].status.Pending? {
      var status := AnswerTo(d, d.records[id], approved, now, given);
      InTimeKeepsInv(d, id, status, storeNow);
      var settled := ResolvedInTime(d, id, status, storeNow);
      WakeKeepsInv(settled, id, settled.records[id].status.Approved?);
    }
  }

  lemma GiveUpKeepsInv(d: Desk, id: ApprovalId, status: Status, storeNow: int)
    requires Inv(d) && !status.Pending?
    ensures Inv(GiveUpStep(d, id, status, storeNow))
  {
    if IsWaiting(d, id) && id in d.records {
      StoreResolveKeepsInv(d, id, status, d.records[id].bound, storeNow);
      WakeKeepsInv(Resolved(d, id, status, d.records[id].bound, storeNow), id, false);
    }
  }

  lemma {:induction false} StepsKeepInv(d: Desk, steps: seq<Step>)
    requires Inv(d)
    ensures Inv(AfterFrom(d, steps))
    decreases |steps|
  {
    if steps != [] {
      StepKeepsInv(d, steps[0]);
      StepsKeepInv(Next(d, steps[0]), steps[1..]);
    }
  }

  // ---- what this gives

  /**
   However user, timer, abort and shutdown race: an approval that left PENDING has exactly one resolved
   event, a pending one has none, and a waiter that woke with true finds the record APPROVED.
   */
  lemma OneResolutionEach(steps: seq<Step>, id: ApprovalId)
    requires id in After(steps).records
    ensures
      var d := After(steps);
      && ResolvedEvents(d.resolutions, id) == (if d.records[id].status.Pending? then 0 else 1)
      && (id in d.continuations && d.continuations[id] == Woken(true) ==> d.records[id].status.Approved?)
  {
    StepsKeepInv(EMPTY, steps);
  }

  /** What the store makes of a status for a pending approval of a live run. */
  lemma InTimeMeans(d: Desk, id: ApprovalId, status: Status, storeNow: int)
    requires id in d.records && d.records[id].status.Pending? && !status.Pending?
    requires d.records[id].bound.runId in d.runs && !d.runs[d.records[id].bound.runId].terminal
    ensures ResolvedInTime(d, id, status, storeNow).records[id].status
      == if status.Approved? && d.records[id].bound.expiresAt <= storeNow then Expired else status
  {}

  /**
   What a user's answer makes of a pending approval of a live run: APPROVED exactly when the user
   approves, the binding is current and neither clock has passed the expiry; EXPIRED when one has,
   unless a denial came in time by the service's clock; DENIED otherwise.
   */
  lemma UsersAnswer(d: Desk, id: ApprovalId, approved: bool, now: int, storeNow: int, given: Circumstances)
    requires id in d.records && d.records[id].status.Pending?
    requires d.records[id].bound.runId in d.runs && !d.runs[d.records[id].bound.runId].terminal
    ensures
      var after := UserStep(d, id, approved, now, storeNow, given).records[id].status;
      var expiry := d.records[id].bound.expiresAt;
      var assent := approved && IsCurrent(d, d.records[id], None, given);
      && (after.Approved? <==> assent && now < expiry && storeNow < expiry)
      && (after.Expired? <==> expiry <= now || (assent && expiry <= storeNow))
      && (after.Denied? <==> !assent && now < expiry)
  {
    InTimeMeans(d, id, AnswerTo(d, d.records[id], approved, now, given), storeNow);
  }

  /** A record that left PENDING never changes again. */
  lemma {:induction false} ResolvedIsFinal(d: Desk, later: seq<Step>, id: ApprovalId)
    requires id in d.records && !d.records[id].status.Pending?
    ensures id in AfterFrom(d, later).records && AfterFrom(d, later).records[id] == d.records[id]
    decreases |later|
  {
    if later != [] {
      StepKeepsResolved(d, later[0], id);
      ResolvedIsFinal(Next(d, later[0]), later[1..], id);
    }
  }

  lemma StepKeepsResolved(d: Desk, s: Step, id: ApprovalId)
    requires id in d.records && !d.records[id].status.Pending?
    ensures id in Next(d, s).records && Next(d, s).records[id] == d.records[id]
  {
    match s
    case UserResolves(other, approved, now, storeNow, given) =>
      UserKeepsResolved(d, other, approved, now, storeNow, given, id);
    case _ =>
  }

  lemma UserKeepsResolved(
    d: Desk, other: ApprovalId, approved: bool, now: int, storeNow: int, given: Circumstances, id: ApprovalId)
    requires id in d.records && !d.records[id].status.Pending?
    ensures id in UserStep(d, other, approved, now, storeNow, given).records
    ensures UserStep(d, other, approved, now, storeNow, given).records[id] == d.records[id]
  {
    if other in d.records && d.records[other].status.Pending? {
      InTimeTouches(d, other, AnswerTo(d, d.records[other], approved, now, given), storeNow);
    }
  }

  /** The store's update touches that record only, and nobody who waits. */
  lemma InTimeTouches(d: Desk, id: ApprovalId, status: Status, storeNow: int)
    requires id in d.records
    ensures
      var n := ResolvedInTime(d, id, status, storeNow);
      && n.continuations == d.continuations && n.records.Keys == d.records.Keys
      && forall other | other in d.records && other != id :: n.records[other] == d.records[other]
  {}

  /**
   Whatever tool executes under an approval: the record is APPROVED, was approved and is used before
   it expires, and binds this very run, owner, workspace, call, policy version and route.
   */
  lemma ExecutionsAreApproved(steps: seq<Step>, e: Execution)
    requires e in After(steps).executed
    ensures
      var d := After(steps);
      && e.id in d.records && d.records[e.id].status.Approved? && e.at < d.records[e.id].bound.expiresAt
      && e.runId in d.runs
      && BindingOf(e.runId, d.runs[e.runId], e.call, e.given, d.records[e.id].bound.expiresAt) == Some(d.records[e.id].bound)
      && e.id in d.asked && d.asked[e.id] == e.call
      && (forall r | r in d.resolutions && r.id == e.id :: r.status.Approved? && r.at < d.records[e.id].bound.expiresAt)
      && ResolvedEvents(d.resolutions, e.id) == 1
  {
    var d := After(steps);
    StepsKeepInv(EMPTY, steps);
    assert ExecutionFits(d, e);
    forall r | r in d.resolutions && r.id == e.id ensures r.status.Approved? && r.at < d.records[e.id].bound.expiresAt {
      assert ResolutionFits(d, r);
    }
  }

  /** The arguments a tool executes with mean what the approved arguments meant. */
  lemma ExecutedArgumentsWereApproved(
    steps: seq<Step>, e: Execution, shown: JsValue, used: JsValue, id: Text, name: Text, callId: Text, tool: Text)
    requires e in After(steps).executed
    requires WellFormed(shown) && WellFormed(used)
    requires e.call == CallOf(callId, tool, used)
    ensures e.id in After(steps).asked && After(steps).asked[e.id] == CallOf(id, name, shown) ==>
      && callId == id && tool == name
      && IsJson(shown) && IsJson(used)
      && CanonicalJson.MeaningOf(used) == CanonicalJson.MeaningOf(shown)
  {
    ExecutionsAreApproved(steps, e);
    if e.id in After(steps).asked && After(steps).asked[e.id] == CallOf(id, name, shown) {
      CanonicalJson.PrintsIffJson(shown);
      CanonicalJson.PrintsIffJson(used);
      CanonicalJson.PrintsAlikeIffSameMeaning(used, shown);
    }
  }

  /**
   An approval lets one execution through if the code that waited for it went on to execute, and none
   otherwise: none while it waits, none after a refusal, an expiry or a failed check, and never two.
   */
  lemma OneExecutionEach(steps: seq<Step>, id: ApprovalId)
    ensures
      var d := After(steps);
      && ExecutionsUnder(d.executed, id) <= 1
      && (ExecutionsUnder(d.executed, id) == 1 <==> id in d.continuations && d.continuations[id] == Finished(true))
  {
    StepsKeepInv(EMPTY, steps);
    var d := After(steps);
    assert ExecutionsUnder(d.executed, id)
      == if id in d.continuations && d.continuations[id] == Finished(true) then 1 else 0;
  }

  /** Code that has gone on stays where it is, whatever comes later. */
  lemma {:induction false} FinishedIsFinal(d: Desk, later: seq<Step>, id: ApprovalId)
    requires Inv(d) && id in d.continuations && d.continuations[id].Finished?
    ensures id in AfterFrom(d, later).continuations && AfterFrom(d, later).continuations[id] == d.continuations[id]
    decreases |later|
  {
    if later != [] {
      StepKeepsInv(d, later[0]);
      StepKeepsFinished(d, later[0], id);
      FinishedIsFinal(Next(d, later[0]), later[1..], id);
    }
  }

  lemma UserKeepsFinished(
    d: Desk, other: ApprovalId, approved: bool, now: int, storeNow: int, given: Circumstances, id: ApprovalId)
    requires id in d.continuations && d.continuations[id].Finished?
    ensures
      var n := UserStep(d, other, approved, now, storeNow, given);
      id in n.continuations && n.continuations[id] == d.continuations[id]
  {
    if other in d.records && d.records[other].status.Pending? {
      InTimeTouches(d, other, AnswerTo(d, d.records[other], approved, now, given), storeNow);
    }
  }

  lemma StepKeepsFinished(d: Desk, s: Step, id: ApprovalId)
    requires WakesMatch(d) && id in d.continuations && d.continuations[id].Finished?
    ensures id in Next(d, s).continuations && Next(d, s).continuations[id] == d.continuations[id]
  {
    match s
    case UserResolves(other, approved, now, storeNow, given) =>
      UserKeepsFinished(d, other, approved, now, storeNow, given, id);
    case _ =>
  }

  // ---- the service's own methods

  class ApprovalService {
    var runs: map<RunId, RunInfo>
    var asked: map<ApprovalId, Call>
    var records: map<ApprovalId, Record>
    var resolutions: seq<Resolution>
    var continuations: map<ApprovalId, Continuation>
    var executed: seq<Execution>

    ghost function State(): Desk
      reads this
    {
      Desk(runs, asked, records, resolutions, continuations, executed)
    }

    ghost predicate Valid()
      reads this
    {
      Inv(State())
    }

    constructor ()
      ensures Valid() && State() == EMPTY
    {
      runs, asked, records, resolutions := map[], map[], map[], [];
      continuations, executed := map[], [];
    }

    method StoreResolve(id: ApprovalId, status: Status, expected: Binding, at: int)
      requires Valid() && !status.Pending?
      modifies this`records, this`resolutions
      ensures Valid() && State() == Resolved(old(State()), id, status, expected, at)
    {
      StoreResolveKeepsInv(State(), id, status, expected, at);
      ghost var next := Resolved(State(), id, status, expected, at);
      if MayResolve(Desk(runs, asked, records, resolutions, continuations, executed), id, status, expected, at) {
        records := records[id := records[id].(status := status)];
        resolutions := resolutions + [Resolution(id, status, at)];
      }
      assert State() == next;
    }

    method Settle(id: ApprovalId, value: bool)
      requires Valid()
      requires value && id in continuations && continuations[id].Waiting? ==> id in records && records[id].status.Approved?
      modifies this`continuations
      ensures Valid() && State() == Wake(old(State()), id, value)
    {
      WakeKeepsInv(State(), id, value);
      if id in continuations && continuations[id].Waiting? { continuations := continuations[id := Woken(value)]; }
    }

    /** What follows the promise: the check before the execution, and the execution. */
    method GoOn(id: ApprovalId, run: RunId, call: Call, now: int, given: Circumstances) returns (executes: bool)
      requires Valid() && id in continuations && continuations[id].Woken?
      modifies this`continuations, this`executed
      ensures Valid() && State() == ContinueStep(old(State()), id, run, call, now, given)
      ensures continuations[id] == Finished(executes)
      ensures executes <==> old(continuations)[id].granted && IsExecutable(old(State()), id, run, call, now, given)
    {
      ContinueKeepsInv(State(), id, run, call, now, given);
      var desk := Desk(runs, asked, records, resolutions, continuations, executed);
      executes := continuations[id].granted && IsExecutable(desk, id, run, call, now, given);
      continuations := continuations[id := Finished(executes)];
      if executes { executed := executed + [Execution(id, run, call, now, given)]; }
    }

    /** `resolveApproval`: the answer is the record as it now stands. */
    method ResolveApproval(id: ApprovalId, approved: bool, now: int, storeNow: int, given: Circumstances)
      returns (resolved: Option<Record>)
      requires Valid()
      modifies this
      ensures Valid() && State() == UserStep(old(State()), id, approved, now, storeNow, given)
      ensures resolved == if id in records then Some(records[id]) else None
    {
      if id !in records { return None; }
      var existing := records[id];
      if existing.status.Pending? { Answer(id, approved, now, storeNow, given); }
      resolved := Some(records[id]);
    }

    /** The answer to an approval that is pending. */
    method Answer(id: ApprovalId, approved: bool, now: int, storeNow: int, given: Circumstances)
      requires Valid() && id in records && records[id].status.Pending?
      modifies this
      ensures Valid() && State() == UserStep(old(State()), id, approved, now, storeNow, given)
    {
      var bound := records[id].bound;
      var desk := Desk(runs, asked, records, resolutions, continuations, executed);
      var bindingValid := IsCurrent(desk, records[id], None, given);
      var status := if bound.expiresAt <= now then Expired else if bindingValid && approved then Approved else Denied;
      assert status == AnswerTo(State(), records[id], approved, now, given);
      ghost var settled := ResolvedInTime(State(), id, status, storeNow);
      StoreResolve(id, status, bound, storeNow);
      if status.Approved? && records[id].status.Pending? { StoreResolve(id, Expired, bound, storeNow); }
      assert State() == settled;
      Settle(id, records[id].status.Approved?);
    }
  }
}
