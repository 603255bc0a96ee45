/** A run's execution with the agent loop in its place, and what a success then means. */
module WholeRun {
  import opened Wrappers
  import opened RunBudgets
  import opened RunStates
  import A = AgentLoop
  import R = RunExecution

  function ReasonOf(signal: Option<A.Reason>): R.Reason {
    match signal
    case None => R.NotAborted
    case Some(CancelRequested) => R.CancelRequested
    case Some(TimedOut) => R.TimeUp
    case Some(OverBudget) => R.OverBudget
    case Some(LeaseLost) => R.LeaseLost
  }

  /** What the world was but for the agent: the condition of a success when the agent came to its end. */
  predicate AllElseSucceeds(w: R.World) {
    && !w.deadlinePassed && R.ReachesRunning(w)
    && !(w.cancelMeanwhile && MayMove(if w.lifecycle then Checkpointing else Running, Cancelled))
    && (w.lifecycle ==> w.leaseValid && w.checkpoint.Returned?) && w.leaseReleased && !R.ReleaseFails(w)
  }

  predicate Succeeds(w: R.World) { !w.deadlinePassed && !R.CancelComesFirst(w) && R.Verdict(w).Succeeded? }

  lemma SucceedsWithAgent(w: R.World, done: bool, leaseLost: bool, reason: R.Reason)
    requires R.ReachesRunning(w)
    ensures Succeeds(w.(agent := if done then R.Returned else R.Threw(leaseLost), reason := reason))
      <==> AllElseSucceeds(w) && done
  {
    R.SuccessMeans(w.(agent := if done then R.Returned else R.Threw(leaseLost), reason := reason));
  }

  lemma NoSuccessUnlessRunning(w: R.World)
    requires w.deadlinePassed || !R.ReachesRunning(w)
    ensures !Succeeds(w)
  {
    R.SuccessMeans(w);
  }

  lemma EndsAs(w: R.World, status: RunStatus)
    requires !IsTerminal(status) <==> R.LeftHanging(w)
    requires IsTerminal(status) ==>
      status == if w.deadlinePassed then TimedOut else if R.CancelComesFirst(w) then Cancelled else R.Verdict(w)
    ensures status.Succeeded? <==> Succeeds(w)
  {
    R.SuccessMeans(w);
  }

  /** A whole number of turns bounds the turns of a run that starts one. */
  lemma WholeLimitHolds(settings: A.Settings, started: nat)
    requires IsWhole(settings.budget.maxTurns) && 0 < started <= A.TurnLimitOf(settings)
    ensures started as real <= settings.budget.maxTurns
  {
    A.LimitFitsIffWhole(settings.budget);
  }

  /**
   `#execute` around `AgentRunner.run`. The world says how everything but the agent ends; the script
   says what the agent meets; `fired` whether the signal has fired before the agent starts, and
   `leaseLost` whether an authorization that fails does so for want of the lease.
   */
  method Execute(settings: A.Settings, w: R.World, fired: Option<A.Outside>, script: seq<A.Turn>, leaseLost: bool)
    returns (run: R.Execution, agent: A.AgentExecution, done: bool)
    requires settings.budget.maxToolCalls >= 0.0
    ensures done ==> fired.None? && A.EndsWith(script, agent.started, settings)
    ensures !done && R.ReachesRunning(w) && !w.deadlinePassed ==> fired.Some? || A.NoEnd(script, settings)
    ensures run.status.Succeeded? <==> AllElseSucceeds(w) && done
    ensures done ==> Within(agent.usage, settings.budget)
    ensures done ==> agent.started <= A.TurnLimitOf(settings) && agent.started <= |script|
    ensures done && IsWhole(settings.budget.maxTurns) ==> agent.started as real <= settings.budget.maxTurns
    ensures done ==>
      && agent.usage == A.Total(agent.acts) && agent.marks == A.Marks(agent.acts)
      && agent.marks == A.RunMarks(script, agent.started)
    ensures run.status.Succeeded? ==> run.log == R.SuccessLog(w.leaseWait.token, w.lifecycle)
  {
    hide R.EndsAs, R.LogTells, A.NoEnd, A.RunMarks, A.Total, A.Marks, A.TurnsStarted, A.IsTrace;
    agent := new A.AgentExecution(settings);
    agent.Abort(fired);
    var world := w;
    done := false;
    if R.ReachesRunning(w) && !w.deadlinePassed {
      var r := agent.Run(script);
      done := r.Ok?;
      if done && IsWhole(settings.budget.maxTurns) { WholeLimitHolds(settings, agent.started); }
      SucceedsWithAgent(w, done, leaseLost, ReasonOf(agent.signal));
      world := w.(agent := if done then R.Returned else R.Threw(leaseLost), reason := ReasonOf(agent.signal));
    } else {
      NoSuccessUnlessRunning(w);
    }
    run := new R.Execution();
    run.Execute(world);
    EndsAs(world, run.status);
  }
}
