/**
 What becomes of an approval, event by event, and how an approved call gets to its execution. Everything is
 said of the records, the promises and the executions that others can see.
 */
module ApprovalOutcomes {
  import opened Wrappers
  import opened Approvals

  lemma {:induction false} AfterOneMore(d: Desk, steps: seq<Step>, s: Step)
    ensures AfterFrom(d, steps + [s]) == Next(AfterFrom(d, steps), s)
    decreases |steps|
  {
    if steps == [] {
      assert steps + [s] == [s] && [s][1..] == [];
    } else {
      assert (steps + [s])[1..] == steps[1..] + [s];
      AfterOneMore(Next(d, steps[0]), steps[1..], s);
    }
  }

  lemma OneMore(steps: seq<Step>, s: Step)
    ensures After(steps + [s]) == Next(After(steps), s) && Inv(After(steps)) && Inv(After(steps + [s]))
  {
    hide Inv, Next, AfterFrom;
    AfterOneMore(EMPTY, steps, s);
    NothingIsSound();
    StepsKeepInv(EMPTY, steps);
    StepsKeepInv(EMPTY, steps + [s]);
  }

  lemma NothingIsSound()
    ensures Inv(EMPTY)
  {}

  /** The run's identity, the agent's policy and the route are what they were when the approval was asked for. */
  predicate StillTheSame(d: Desk, b: Binding, given: Circumstances) {
    && b.runId in d.runs && d.runs[b.runId].owner == b.owner && d.runs[b.runId].workspaceId == b.workspaceId
    && given.policy == Some(b.policy) && given.route == b.route
  }

  predicate Live(d: Desk, run: RunId) { run in d.runs && !d.runs[run].terminal }

  predicate SameCall(b: Binding, call: Call) {
    call.id == b.callId && call.name == b.name && call.arguments == Some(b.arguments)
  }

  /** All but this approval's record and promise stay as they were. */
  ghost predicate OnlyTouches(d: Desk, n: Desk, id: ApprovalId) {
    && n.runs == d.runs && n.asked == d.asked && n.executed == d.executed
    && n.records.Keys == d.records.Keys && n.continuations.Keys == d.continuations.Keys
    && (forall other | other in d.records && other != id :: n.records[other] == d.records[other])
    && (forall other | other in d.continuations && other != id :: n.continuations[other] == d.continuations[other])
  }

  // ---- asking

  /**
   An approval is recorded, and awaited, exactly for a live run's call whose arguments are JSON under a known
   policy; the record binds the call, the run and the circumstances, and expires when the time given is over.
   */
  lemma AskedIff(
    steps: seq<Step>, id: ApprovalId, run: RunId, call: Call, now: int, timeoutMs: int, given: Circumstances)
    ensures
      var d, n := After(steps), After(steps + [Ask(id, run, call, now, timeoutMs, given)]);
      if id !in d.records && Live(d, run) && call.arguments.Some? && given.policy.Some? then
        && id in n.records && n.records == d.records[id := n.records[id]] && n.records[id].status == Pending
        && n.continuations == d.continuations[id := Waiting]
        && SameCall(n.records[id].bound, call) && n.records[id].bound.runId == run
        && StillTheSame(d, n.records[id].bound, given) && n.records[id].bound.expiresAt == now + timeoutMs
        && n.executed == d.executed && n.resolutions == d.resolutions && n.runs == d.runs
      else n == d
  {
    hide Inv, After;
    OneMore(steps, Ask(id, run, call, now, timeoutMs, given));
  }

  // ---- resolving

  lemma RecordedIsCurrent(d: Desk, record: Record, given: Circumstances)
    ensures IsCurrent(d, record, None, given) <==> StillTheSame(d, record.bound, given)
  {}

  /** What a user's answer makes of a pending approval. */
  function Outcome(d: Desk, b: Binding, approved: bool, now: int, storeNow: int, given: Circumstances): Status {
    if b.expiresAt <= now then Expired
    else if !approved || !StillTheSame(d, b, given) then Denied
    else if b.expiresAt <= storeNow then Expired
    else Approved
  }

  lemma UserMeans(d: Desk, id: ApprovalId, approved: bool, now: int, storeNow: int, given: Circumstances)
    requires id in d.records && d.records[id].status == Pending
    ensures
      var n, b := UserStep(d, id, approved, now, storeNow, given), d.records[id].bound;
      && n.runs == d.runs && n.asked == d.asked && n.executed == d.executed
      && id in n.records && n.records == d.records[id := n.records[id]] && n.records[id].bound == b
      && n.records[id].status == (if Live(d, b.runId) then Outcome(d, b, approved, now, storeNow, given) else Pending)
      && n.continuations ==
           if id in d.continuations && d.continuations[id] == Waiting
           then d.continuations[id := Woken(n.records[id].status == Approved)] else d.continuations
  {
    RecordedIsCurrent(d, d.records[id], given);
    SettledKeeps(d, id, AnswerTo(d, d.records[id], approved, now, given), storeNow);
  }

  lemma SettledKeeps(d: Desk, id: ApprovalId, status: Status, storeNow: int)
    requires id in d.records && d.records[id].status == Pending && !status.Pending?
    ensures
      var n, b := ResolvedInTime(d, id, status, storeNow), d.records[id].bound;
      && n.runs == d.runs && n.asked == d.asked && n.executed == d.executed && n.continuations == d.continuations
      && n.records.Keys == d.records.Keys && n.records[id].bound == b && n.records == d.records[id := n.records[id]]
      && n.records[id].status ==
           if !Live(d, b.runId) then Pending else if status.Approved? && b.expiresAt <= storeNow then Expired else status
  {}

  /**
   A user's answer to a pending approval of a live run resolves it: it is approved exactly when the user
   approves in time by both clocks and nothing it was bound to has changed. Whoever awaits it then goes on,
   with the approval if there is one; a run that is over gets none.
   */
  lemma UserResolvesTo(
    steps: seq<Step>, id: ApprovalId, approved: bool, now: int, storeNow: int, given: Circumstances)
    requires id in After(steps).records
    ensures
      var d, n := After(steps), After(steps + [UserResolves(id, approved, now, storeNow, given)]);
      var b := d.records[id].bound;
      && id in n.records && n.records[id].bound == b && OnlyTouches(d, n, id)
      && (d.records[id].status != Pending ==> n == d)
      && (d.records[id].status == Pending ==>
            n.records[id].status == if Live(d, b.runId) then Outcome(d, b, approved, now, storeNow, given) else Pending)
      && (d.records[id].status == Pending && id in d.continuations ==>
            n.continuations[id] ==
              if d.continuations[id] == Waiting then Woken(n.records[id].status == Approved) else d.continuations[id])
  {
    hide Inv, After, Outcome, UserStep;
    OneMore(steps, UserResolves(id, approved, now, storeNow, given));
    if After(steps).records[id].status == Pending {
      UserMeans(After(steps), id, approved, now, storeNow, given);
    } else {
      UserIsLate(After(steps), id, approved, now, storeNow, given);
    }
  }

  lemma UserIsLate(d: Desk, id: ApprovalId, approved: bool, now: int, storeNow: int, given: Circumstances)
    requires id in d.records && d.records[id].status != Pending
    ensures UserStep(d, id, approved, now, storeNow, given) == d
  {}

  /**
   While an approval is awaited, its timer expires it, the abort of its run denies it, and a shutdown leaves its
   record alone; each of them ends the wait without an approval. Once the wait is over they change nothing.
   */
  lemma WaitEndsWithout(steps: seq<Step>, end: Step, id: ApprovalId, storeNow: int)
    requires id in After(steps).continuations && id in After(steps).records
    requires end == TimerFires(id, storeNow) || end == RunAborts(id, storeNow) || end == ShutdownWakes(id)
    ensures
      var d, n := After(steps), After(steps + [end]);
      && OnlyTouches(d, n, id)
      && (d.continuations[id] != Waiting ==> n == d)
      && (d.continuations[id] == Waiting ==>
            && n.continuations[id] == Woken(false) && n.records[id].bound == d.records[id].bound
            && n.records[id].status ==
                 if end.ShutdownWakes? || d.records[id].status != Pending || !Live(d, d.records[id].bound.runId)
                 then d.records[id].status
                 else if end.TimerFires? then Expired else Denied)
  {
    hide Inv, After;
    OneMore(steps, end);
  }

  // ---- going on

  lemma ExecutableIff(d: Desk, id: ApprovalId, run: RunId, call: Call, now: int, given: Circumstances)
    ensures IsExecutable(d, id, run, call, now, given) <==>
      && id in d.records && d.records[id].status == Approved && now < d.records[id].bound.expiresAt
      && d.records[id].bound.runId == run && SameCall(d.records[id].bound, call)
      && StillTheSame(d, d.records[id].bound, given)
  {}

  /**
   When the wait is over, the call is executed exactly when it was granted, and the approval still stands: it
   has not expired, it is for this run and this very call, and nothing it was bound to has changed.
   */
  lemma GoesOnTo(steps: seq<Step>, id: ApprovalId, run: RunId, call: Call, now: int, given: Circumstances)
    requires id in After(steps).continuations && id in After(steps).records
    ensures
      var d, n := After(steps), After(steps + [Continue(id, run, call, now, given)]);
      var b := d.records[id].bound;
      var executes := d.continuations[id] == Woken(true) && d.records[id].status == Approved && now < b.expiresAt
                      && b.runId == run && SameCall(b, call) && StillTheSame(d, b, given);
      && n.records == d.records && n.resolutions == d.resolutions && n.runs == d.runs
      && n.executed == (if executes then d.executed + [Execution(id, run, call, now, given)] else d.executed)
      && n.continuations == if d.continuations[id].Woken? then d.continuations[id := Finished(executes)] else d.continuations
  {
    hide Inv, After, IsExecutable;
    OneMore(steps, Continue(id, run, call, now, given));
    ExecutableIff(After(steps), id, run, call, now, given);
  }

  /**
   The way from the request to the execution is open: what a live run asks for, and a user approves in time under
   the same circumstances, is executed if the run goes on with the same call in time.
   */
  lemma ApprovedIsExecuted(
    steps: seq<Step>, id: ApprovalId, run: RunId, call: Call, given: Circumstances,
    askedAt: int, timeoutMs: int, answeredAt: int, storedAt: int, executedAt: int)
    requires id !in After(steps).records && Live(After(steps), run) && call.arguments.Some? && given.policy.Some?
    requires answeredAt < askedAt + timeoutMs && storedAt < askedAt + timeoutMs && executedAt < askedAt + timeoutMs
    ensures
      var ask, answer := Ask(id, run, call, askedAt, timeoutMs, given), UserResolves(id, true, answeredAt, storedAt, given);
      var go := Continue(id, run, call, executedAt, given);
      After(steps + [ask] + [answer] + [go]).executed
      == After(steps).executed + [Execution(id, run, call, executedAt, given)]
  {
    hide After;
    var ask, answer := Ask(id, run, call, askedAt, timeoutMs, given), UserResolves(id, true, answeredAt, storedAt, given);
    AskedIff(steps, id, run, call, askedAt, timeoutMs, given);
    UserResolvesTo(steps + [ask], id, true, answeredAt, storedAt, given);
    GoesOnTo(steps + [ask] + [answer], id, run, call, executedAt, given);
  }
}
