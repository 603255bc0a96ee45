/**
 One execution of a queued run: lease, workspace, agent, checkpoint, lease release, run release,
 and the terminal status that comes out. A `World` says how everything awaited or called ends.
 */
module RunExecution {
  import opened RunStates

  /** The abort signal's reason. */
  datatype Reason = NotAborted | CancelRequested | TimeUp | OverBudget | LeaseLost

  datatype LeaseWait = Acquired(token: nat) | NotAcquired

  /** How an awaited call that may throw ends; lease loss is an error of its own kind. */
  datatype Ending = Returned | Threw(leaseLost: bool)

  datatype RunRelease = NoRelease | Released | DebtRecorded | ReleaseThrew

  datatype World = World(
    deadlinePassed: bool,
    attemptCreated: bool,
    leaseWait: LeaseWait,
    lifecycle: bool,
    prepare: Ending,
    agent: Ending,
    /** The signal's reason when the error is caught. */
    reason: Reason,
    leaseValid: bool,
    checkpoint: Ending,
    /** Whether renewal has failed by the time a checkpoint error is caught. */
    renewalFailed: bool,
    leaseReleased: bool,
    runRelease: RunRelease,
    /** Whether `cancelRun` is called while the run release is awaited. */
    cancelMeanwhile: bool)

  datatype Event =
    | Moved(to: RunStatus)
    | LeaseAcquired(token: nat)
    | CheckpointCompleted
    | CheckpointFailed
    | LeaseReleased(token: nat)

  /** The statuses that a log records, after the one the run was queued in. */
  function Statuses(log: seq<Event>): seq<RunStatus> {
    if log == [] then [Queued]
    else Statuses(log[..|log| - 1]) + match log[|log| - 1] case Moved(to) => [to] case _ => []
  }

  function TerminalEvents(log: seq<Event>): nat {
    if log == [] then 0
    else
      var last := log[|log| - 1];
      TerminalEvents(log[..|log| - 1]) + if last.Moved? && IsTerminal(last.to) then 1 else 0
  }

  lemma Logged(log: seq<Event>, e: Event)
    ensures Statuses(log + [e]) == Statuses(log) + match e case Moved(to) => [to] case _ => []
    ensures TerminalEvents(log + [e]) == TerminalEvents(log) + if e.Moved? && IsTerminal(e.to) then 1 else 0
  {
    assert (log + [e])[..|log|] == log;
  }

  // ---- the verdict, as the source promises it

  predicate HasLease(w: World) { w.attemptCreated && w.leaseWait.Acquired? }

  predicate Prepared(w: World) { HasLease(w) && w.lifecycle && w.prepare.Returned? }

  predicate ReachesRunning(w: World) { HasLease(w) && (w.lifecycle ==> w.prepare.Returned?) }

  predicate AgentSucceeds(w: World) { ReachesRunning(w) && w.agent.Returned? }

  predicate CheckpointSucceeds(w: World) { w.leaseValid && w.checkpoint.Returned? }

  predicate ReleaseFails(w: World) { w.runRelease.DebtRecorded? || w.runRelease.ReleaseThrew? }

  /** The error that ends the body: lease loss, known from the signal or from the error itself. */
  predicate LeaseErrorCaught(w: World) {
    && !AgentSucceeds(w)
    && (w.reason.LeaseLost?
        || (w.reason.NotAborted?
            && (if ReachesRunning(w) then w.agent == Threw(true)
                else HasLease(w) && w.prepare == Threw(true))))
  }

  predicate CheckpointLosesLease(w: World) {
    Prepared(w) && !CheckpointSucceeds(w) && (!w.leaseValid || w.checkpoint == Threw(true) || w.renewalFailed)
  }

  /** The terminal status before the run release has its say. */
  function Sofar(w: World): RunStatus {
    if CheckpointLosesLease(w) || LeaseErrorCaught(w) then Orphaned
    else if AgentSucceeds(w) then
      if Prepared(w) && !CheckpointSucceeds(w) then Failed
      else if !w.leaseReleased then Orphaned
      else Succeeded
    else
      match w.reason
      case CancelRequested => Cancelled
      case TimeUp => TimedOut
      case _ => Failed
  }

  /** The terminal status that finalization settles on. */
  function Verdict(w: World): RunStatus { if ReleaseFails(w) then Orphaned else Sofar(w) }

  /** The status in which finalization finds the run. */
  function Reached(w: World): RunStatus {
    if AgentSucceeds(w) && w.lifecycle then Checkpointing
    else if ReachesRunning(w) then Running
    else if w.attemptCreated then Preparing
    else Queued
  }

  /** A cancellation during the run release comes first, when the table lets it. */
  predicate CancelComesFirst(w: World) { w.cancelMeanwhile && MayMove(Reached(w), Cancelled) }

  /** The runs that finalization leaves without a terminal status: the table has no way out for them. */
  predicate LeftHanging(w: World) {
    !w.deadlinePassed && !CancelComesFirst(w) && !ReachesRunning(w) && Verdict(w).Orphaned?
  }

  /** Where finalization leaves a run whose deadline had not passed. */
  function Settled(w: World): RunStatus {
    if CancelComesFirst(w) then Cancelled else if MayMove(Reached(w), Verdict(w)) then Verdict(w) else Reached(w)
  }

  lemma SettledIs(w: World)
    requires !w.deadlinePassed
    ensures !IsTerminal(Settled(w)) <==> LeftHanging(w)
    ensures IsTerminal(Settled(w)) ==> Settled(w) == if CancelComesFirst(w) then Cancelled else Verdict(w)
    ensures Settled(w).Succeeded? ==> Sofar(w).Succeeded?
    ensures !IsTerminal(Reached(w)) && IsTerminal(Sofar(w))
  {}

  /** What a successful run leaves in its log. */
  function SuccessLog(token: nat, lifecycle: bool): seq<Event> {
    [Moved(Preparing), LeaseAcquired(token), Moved(Running)]
    + (if lifecycle then [Moved(Checkpointing), CheckpointCompleted] else [])
    + [LeaseReleased(token), Moved(Succeeded)]
  }

  // ---- how a run ends, in terms of what happened

  /** The agent was started: the attempt was stored, the lease acquired, and the workspace prepared where there is one. */
  predicate Began(w: World) { w.attemptCreated && w.leaseWait.Acquired? && (!w.lifecycle || w.prepare.Returned?) }

  /** The agent came to its end. */
  predicate Completed(w: World) { Began(w) && w.agent.Returned? }

  /** A prepared workspace could not be checkpointed under the lease. */
  predicate CheckpointBroke(w: World) {
    && w.attemptCreated && w.leaseWait.Acquired? && w.lifecycle && w.prepare.Returned?
    && (!w.leaseValid || w.checkpoint.Threw?)
  }

  predicate LeaseLostAtCheckpoint(w: World) {
    CheckpointBroke(w) && (!w.leaseValid || w.checkpoint.leaseLost || w.renewalFailed)
  }

  /** `cancelRun` came while the run release was awaited, and a run that is checkpointing does not heed it. */
  predicate CancelledLate(w: World) { w.cancelMeanwhile && !(Completed(w) && w.lifecycle) }

  /** Nothing from the outside of the attempt has its say: not the deadline, a late cancellation or the run release. */
  predicate Undisturbed(w: World) {
    !w.deadlinePassed && !CancelledLate(w) && (w.runRelease.NoRelease? || w.runRelease.Released?)
  }

  predicate EndsSucceeded(w: World) { Undisturbed(w) && Completed(w) && !CheckpointBroke(w) && w.leaseReleased }

  predicate EndsCancelled(w: World) {
    !w.deadlinePassed &&
    (CancelledLate(w) || (Undisturbed(w) && !Completed(w) && !LeaseLostAtCheckpoint(w) && w.reason == CancelRequested))
  }

  predicate EndsTimedOut(w: World) {
    w.deadlinePassed || (Undisturbed(w) && !Completed(w) && !LeaseLostAtCheckpoint(w) && w.reason == TimeUp)
  }

  /** The agent, or what came before it, ended with the loss of the lease and no other reason was given before. */
  predicate LeaseLostAtWork(w: World) {
    && !Completed(w)
    && (|| w.reason == LeaseLost
        || (w.reason == NotAborted && Began(w) && w.agent.leaseLost)
        || (w.reason == NotAborted && w.attemptCreated && w.leaseWait.Acquired? && !Began(w) && w.prepare.leaseLost))
  }

  predicate EndsFailed(w: World) {
    Undisturbed(w) && !LeaseLostAtCheckpoint(w) &&
    if Completed(w) then CheckpointBroke(w) else !LeaseLostAtWork(w) && (w.reason == OverBudget || w.reason == NotAborted)
  }

  /** Only a run that reached RUNNING can end as an orphan. */
  predicate EndsOrphaned(w: World) {
    && !w.deadlinePassed && !CancelledLate(w) && Began(w)
    && (|| w.runRelease.DebtRecorded? || w.runRelease.ReleaseThrew?
        || LeaseLostAtCheckpoint(w) || LeaseLostAtWork(w)
        || (Completed(w) && !CheckpointBroke(w) && !w.leaseReleased))
  }

  /** What is left is left hanging. */
  predicate EndsNowhere(w: World) {
    && !w.deadlinePassed && !CancelledLate(w) && !Began(w)
    && (w.runRelease.DebtRecorded? || w.runRelease.ReleaseThrew? || LeaseLostAtWork(w))
  }

  predicate EndsAs(w: World, status: RunStatus) {
    && (status == Succeeded <==> EndsSucceeded(w)) && (status == Cancelled <==> EndsCancelled(w))
    && (status == TimedOut <==> EndsTimedOut(w)) && (status == Failed <==> EndsFailed(w))
    && (status == Orphaned <==> EndsOrphaned(w)) && (!IsTerminal(status) <==> EndsNowhere(w))
  }

  /** The lease and the workspace leave their traces: taken, given back, and checkpointed in between. */
  ghost predicate LogTells(w: World, log: seq<Event>) {
    && (forall t :: LeaseAcquired(t) in log <==> !w.deadlinePassed && w.attemptCreated && w.leaseWait == Acquired(t))
    && (forall t :: LeaseReleased(t) in log <==> LeaseAcquired(t) in log && w.leaseReleased)
    && (CheckpointFailed in log <==> !w.deadlinePassed && CheckpointBroke(w))
    && (CheckpointCompleted in log <==>
          && !w.deadlinePassed && w.attemptCreated && w.leaseWait.Acquired? && w.lifecycle && w.prepare.Returned?
          && w.leaseValid && w.checkpoint.Returned?)
  }

  function When(condition: bool, e: Event): seq<Event> { if condition then [e] else [] }

  /** What has been logged when the agent has ended. */
  function OpeningLog(w: World): seq<Event> {
    When(w.attemptCreated, Moved(Preparing))
    + (if HasLease(w) then [LeaseAcquired(w.leaseWait.token)] else [])
    + When(ReachesRunning(w), Moved(Running)) + When(AgentSucceeds(w) && w.lifecycle, Moved(Checkpointing))
  }

  /** What follows until the run release begins. */
  function ClosingLog(w: World): seq<Event> {
    When(Prepared(w), if CheckpointSucceeds(w) then CheckpointCompleted else CheckpointFailed)
    + if HasLease(w) && w.leaseReleased then [LeaseReleased(w.leaseWait.token)] else []
  }

  lemma InOpening(w: World, e: Event)
    requires !e.Moved?
    ensures e in OpeningLog(w) <==> HasLease(w) && e == LeaseAcquired(w.leaseWait.token)
  {}

  lemma InClosing(w: World, e: Event)
    ensures e in ClosingLog(w) <==>
      || (Prepared(w) && e == if CheckpointSucceeds(w) then CheckpointCompleted else CheckpointFailed)
      || (HasLease(w) && w.leaseReleased && e == LeaseReleased(w.leaseWait.token))
  {}

  lemma AttemptLogTells(w: World, log: seq<Event>, to: seq<Event>)
    requires !w.deadlinePassed && log == OpeningLog(w) + ClosingLog(w) + to && forall e | e in to :: e.Moved?
    ensures LogTells(w, log)
  {
    hide OpeningLog, ClosingLog;
    forall e: Event | !e.Moved? ensures e in log <==> e in OpeningLog(w) || e in ClosingLog(w) {}
    forall t ensures LeaseAcquired(t) in log <==> w.attemptCreated && w.leaseWait == Acquired(t) {
      InOpening(w, LeaseAcquired(t));
      InClosing(w, LeaseAcquired(t));
    }
    forall t ensures LeaseReleased(t) in log <==> w.attemptCreated && w.leaseWait == Acquired(t) && w.leaseReleased {
      InOpening(w, LeaseReleased(t));
      InClosing(w, LeaseReleased(t));
    }
    InOpening(w, CheckpointFailed);
    InClosing(w, CheckpointFailed);
    InOpening(w, CheckpointCompleted);
    InClosing(w, CheckpointCompleted);
  }

  /** What finalization settles on is what these say. */
  lemma SettledMeans(w: World)
    requires !w.deadlinePassed
    ensures EndsAs(w, Settled(w))
  {}

  // ---- the code

  /** The run's record: its status and its log, changed by `#transition` and `appendEvent` only. */
  class Execution {
    var status: RunStatus
    var log: seq<Event>

    /** The log tells the status's history, and holds a terminal event just when the status is terminal. */
    ghost predicate Valid()
      reads this
    {
      && Statuses(log) != [] && Statuses(log)[|Statuses(log)| - 1] == status
      && IsHistory(Statuses(log))
      && TerminalEvents(log) == if IsTerminal(status) then 1 else 0
    }

    constructor ()
      ensures Valid() && status == Queued && log == []
    {
      status, log := Queued, [];
    }

    /** `#transition`: throws what the table refuses. */
    method Transition(to: RunStatus) returns (ok: bool)
      requires Valid()
      modifies this
      ensures Valid() && ok == MayMove(old(status), to)
      ensures ok ==> status == to && log == old(log) + [Moved(to)]
      ensures !ok ==> status == old(status) && log == old(log)
    {
      if !MayMove(status, to) { return false; }
      Logged(log, Moved(to));
      MovesForward(status, to);
      status, log := to, log + [Moved(to)];
      ok := true;
    }

    method Append(e: Event)
      requires Valid() && !e.Moved?
      modifies this`log
      ensures Valid() && log == old(log) + [e]
    {
      Logged(log, e);
      log := log + [e];
    }

    /** The body up to the agent's end: what was caught, and the lease and workspace held by then. */
    method Body(w: World) returns (caught: Ending, leased: bool, prepared: bool)
      requires Valid() && status == Queued && log == []
      modifies this
      ensures Valid() && status == Reached(w)
      ensures caught.Returned? <==> AgentSucceeds(w)
      ensures !AgentSucceeds(w) && w.reason.NotAborted? ==> caught.leaseLost == LeaseErrorCaught(w)
      ensures leased == HasLease(w) && prepared == Prepared(w)
      ensures AgentSucceeds(w) ==>
        log == [Moved(Preparing), LeaseAcquired(w.leaseWait.token), Moved(Running)]
               + if w.lifecycle then [Moved(Checkpointing)] else []
      ensures log == OpeningLog(w)
    {
      hide Statuses, TerminalEvents, IsHistory;
      leased, prepared := false, false;
      if !w.attemptCreated { return Threw(false), false, false; }
      var ok := Transition(Preparing);
      if w.leaseWait.NotAcquired? { return Threw(false), false, false; }
      leased := true;
      Append(LeaseAcquired(w.leaseWait.token));
      if w.lifecycle {
        if w.prepare.Threw? { return w.prepare, true, false; }
        prepared := true;
      }
      ok := Transition(Running);
      caught := w.agent;
      if caught.Returned? && w.lifecycle { ok := Transition(Checkpointing); }
    }

    /** The `catch` block: the signal's reason comes before the error. */
    static function Caught(reason: Reason, error: Ending): RunStatus {
      match reason
      case CancelRequested => Cancelled
      case TimeUp => TimedOut
      case OverBudget => Failed
      case LeaseLost => Orphaned
      case NotAborted => if error == Threw(true) then Orphaned else Failed
    }

    /** The checkpoint, and what its failure makes of the verdict so far. */
    method Checkpoint(w: World, sofar: RunStatus) returns (verdict: RunStatus)
      requires Valid()
      modifies this`log
      ensures Valid()
      ensures log == old(log) + [if CheckpointSucceeds(w) then CheckpointCompleted else CheckpointFailed]
      ensures verdict ==
        if CheckpointSucceeds(w) then sofar
        else if !w.leaseValid || w.checkpoint == Threw(true) || w.renewalFailed then Orphaned
        else if sofar.Succeeded? then Failed else sofar
    {
      var error := if !w.leaseValid then Threw(true) else w.checkpoint;
      verdict := sofar;
      if error.Returned? {
        Append(CheckpointCompleted);
      } else {
        Append(CheckpointFailed);
        if error.leaseLost || w.renewalFailed { verdict := Orphaned; }
        else if verdict.Succeeded? { verdict := Failed; }
      }
    }

    /** The lease is given back under its token; a success that cannot give it back is none. */
    method GiveBack(w: World, leased: bool, sofar: RunStatus) returns (verdict: RunStatus)
      requires Valid() && leased == HasLease(w)
      modifies this`log
      ensures Valid()
      ensures log == old(log) + if leased && w.leaseReleased then [LeaseReleased(w.leaseWait.token)] else []
      ensures verdict == if leased && !w.leaseReleased && sofar.Succeeded? then Orphaned else sofar
    {
      verdict := sofar;
      if leased && w.leaseReleased {
        Append(LeaseReleased(w.leaseWait.token));
      } else if leased && verdict.Succeeded? {
        verdict := Orphaned;
      }
    }

    /** The run release, during which a cancellation may come first, and the last transition. */
    method Settle(w: World, sofar: RunStatus)
      requires Valid() && !IsTerminal(status) && IsTerminal(sofar)
      modifies this
      ensures Valid()
      ensures status ==
        if w.cancelMeanwhile && MayMove(old(status), Cancelled) then Cancelled
        else if MayMove(old(status), if ReleaseFails(w) then Orphaned else sofar)
        then if ReleaseFails(w) then Orphaned else sofar
        else old(status)
      ensures log == old(log) + if status == old(status) then [] else [Moved(status)]
    {
      var terminal := sofar;
      if w.cancelMeanwhile { var _ := Transition(Cancelled); }
      if w.runRelease.DebtRecorded? || w.runRelease.ReleaseThrew? { terminal := Orphaned; }
      if !IsTerminal(status) { var _ := Transition(terminal); }
    }

    /** All up to the run release. */
    method Attempt(w: World) returns (terminal: RunStatus)
      requires Valid() && status == Queued && log == []
      modifies this
      ensures Valid() && status == Reached(w) && terminal == Sofar(w) && log == OpeningLog(w) + ClosingLog(w)
      ensures terminal.Succeeded? ==>
        HasLease(w) && log + [Moved(Succeeded)] == SuccessLog(w.leaseWait.token, w.lifecycle)
    {
      hide OpeningLog, Statuses, TerminalEvents, IsHistory;
      var caught, leased, prepared := Body(w);
      terminal := if caught.Returned? then Succeeded else Caught(w.reason, caught);
      if prepared { terminal := Checkpoint(w, terminal); }
      terminal := GiveBack(w, leased, terminal);
    }

    /** `#execute` of a run whose deadline has not passed. */
    method Live(w: World)
      requires Valid() && status == Queued && log == [] && !w.deadlinePassed
      modifies this
      ensures Valid() && status == Settled(w) && EndsAs(w, status) && LogTells(w, log)
      ensures status.Succeeded? ==> HasLease(w) && log == SuccessLog(w.leaseWait.token, w.lifecycle)
    {
      hide LogTells, OpeningLog, ClosingLog, EndsAs, Statuses, TerminalEvents, IsHistory;
      SettledIs(w);
      SettledMeans(w);
      var terminal := Attempt(w);
      ghost var before := log;
      Settle(w, terminal);
      AttemptLogTells(w, log, log[|before|..]);
    }

    /** `#execute`. */
    method Execute(w: World)
      requires Valid() && status == Queued && log == []
      modifies this
      ensures Valid()
      ensures EndsAs(w, status) && LogTells(w, log)
      ensures !IsTerminal(status) <==> LeftHanging(w)
      ensures IsTerminal(status) ==>
        status == if w.deadlinePassed then TimedOut else if CancelComesFirst(w) then Cancelled else Verdict(w)
      ensures status.Succeeded? ==> HasLease(w) && log == SuccessLog(w.leaseWait.token, w.lifecycle)
    {
      if w.deadlinePassed {
        var _ := Transition(TimedOut);
      } else {
        Live(w);
        SettledIs(w);
      }
    }
  }

  // ---- what the verdict means

  /** A success means: the agent ended well, the checkpoint was written under a valid lease, the lease was given back, no debt. */
  lemma SuccessMeans(w: World)
    ensures Verdict(w).Succeeded? <==>
      && AgentSucceeds(w)
      && (w.lifecycle ==> w.leaseValid && w.checkpoint.Returned?)
      && w.leaseReleased
      && !w.runRelease.DebtRecorded? && !w.runRelease.ReleaseThrew?
  {}

  /** From RUNNING on, every verdict is one the table allows. */
  lemma RunningAlwaysEnds(w: World)
    requires ReachesRunning(w)
    ensures MayMove(Reached(w), Verdict(w)) && !LeftHanging(w)
  {}

  /**
   What can come together: the signal can only be fired once the attempt has begun, renewal only fails
   for a lease that was acquired, and the budget is only exceeded by a run that reached RUNNING.
   */
  predicate Possible(w: World) {
    && (!w.attemptCreated ==> w.reason.NotAborted?)
    && (w.renewalFailed ==> HasLease(w)) && (w.reason.LeaseLost? ==> w.renewalFailed)
    && (w.reason.OverBudget? ==> ReachesRunning(w))
  }

  /**
   A run is left without a terminal status exactly when it never reached RUNNING, was not cancelled
   in the end, and either its run release failed or its lease was lost before the agent started; the
   latter is to say: while the workspace was being prepared.
   */
  lemma HangsIff(w: World)
    ensures LeftHanging(w) <==>
      && !w.deadlinePassed && !w.cancelMeanwhile
      && !(HasLease(w) && (w.lifecycle ==> w.prepare.Returned?))
      && (|| w.runRelease.DebtRecorded? || w.runRelease.ReleaseThrew?
          || w.reason.LeaseLost?
          || (w.reason.NotAborted? && HasLease(w) && w.prepare == Threw(true)))
    ensures Possible(w) ==>
      (LeftHanging(w) <==>
        && !w.deadlinePassed && !w.cancelMeanwhile && !ReachesRunning(w)
        && (|| ReleaseFails(w)
            || (&& HasLease(w) && w.lifecycle && w.prepare.Threw?
                && (w.reason.LeaseLost? || (w.reason.NotAborted? && w.prepare.leaseLost)))))
  {}

  const LOST_WHILE_PREPARING :=
    World(false, true, Acquired(1), true, Threw(true), Returned, LeaseLost, false, Returned, true, false, Released, false)

  /** One such run: its lease is lost while the workspace is being prepared. */
  lemma LeaseLossWhilePreparingHangs()
    ensures Possible(LOST_WHILE_PREPARING)
    ensures LeftHanging(LOST_WHILE_PREPARING) && Reached(LOST_WHILE_PREPARING) == Preparing
    ensures !MayMove(Preparing, Verdict(LOST_WHILE_PREPARING))
  {}
}
