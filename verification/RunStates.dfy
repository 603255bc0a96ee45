/** Run statuses and the transition table that guards every status change. */
module RunStates {
  datatype RunStatus =
    | Accepted | Queued | Preparing | Running | Checkpointing
    | Succeeded | Failed | Cancelled | TimedOut | Orphaned

  predicate IsTerminal(s: RunStatus) {
    s.Succeeded? || s.Failed? || s.Cancelled? || s.TimedOut? || s.Orphaned?
  }

  /** `allowedTransitions`. */
  function Allowed(from: RunStatus): set<RunStatus> {
    match from
    case Accepted => {Queued, Cancelled, Failed}
    case Queued => {Preparing, Cancelled, Failed, TimedOut}
    case Preparing => {Running, Cancelled, Failed, TimedOut}
    case Running => {Checkpointing, Succeeded, Cancelled, Failed, TimedOut, Orphaned}
    case Checkpointing => {Succeeded, Failed, Orphaned}
    case _ => {}
  }

  /** What `assertRunTransition` lets pass. */
  predicate MayMove(from: RunStatus, to: RunStatus) { to in Allowed(from) }

  /** The table read by where a run may come from: each status has its own ways in. */
  lemma WaysIn(from: RunStatus)
    ensures !MayMove(from, Accepted)
    ensures MayMove(from, Queued) <==> from == Accepted
    ensures MayMove(from, Preparing) <==> from == Queued
    ensures MayMove(from, Running) <==> from == Preparing
    ensures MayMove(from, Checkpointing) <==> from == Running
    ensures MayMove(from, Succeeded) <==> from == Running || from == Checkpointing
    ensures MayMove(from, Orphaned) <==> from == Running || from == Checkpointing
    ensures MayMove(from, TimedOut) <==> from == Queued || from == Preparing || from == Running
    ensures MayMove(from, Failed) <==> !IsTerminal(from)
    ensures MayMove(from, Cancelled) <==> !IsTerminal(from) && from != Checkpointing
  {}

  /** How far along its life a run is; all terminal statuses are equally final. */
  function Rank(s: RunStatus): nat {
    match s
    case Accepted => 0
    case Queued => 1
    case Preparing => 2
    case Running => 3
    case Checkpointing => 4
    case _ => 5
  }

  /** Every permitted change moves a run forward, so no history visits a status twice. */
  lemma MovesForward(from: RunStatus, to: RunStatus)
    requires MayMove(from, to)
    ensures Rank(from) < Rank(to)
    ensures !IsTerminal(from)
  {}

  /** A history: each status reached from the one before by a permitted change. */
  predicate IsHistory(h: seq<RunStatus>) { forall i | 0 < i < |h| :: MayMove(h[i - 1], h[i]) }

  lemma {:induction false} HistoryRises(h: seq<RunStatus>, i: nat, j: nat)
    requires IsHistory(h) && i < j < |h|
    ensures Rank(h[i]) < Rank(h[j]) && !IsTerminal(h[i])
    decreases j - i
  {
    MovesForward(h[j - 1], h[j]);
    if i < j - 1 { HistoryRises(h, i, j - 1); }
  }

  /** A history passes through at most one terminal status, and only at its end; it has at most six entries. */
  lemma HistoryEndsOnce(h: seq<RunStatus>)
    requires IsHistory(h)
    ensures forall i | 0 <= i < |h| && IsTerminal(h[i]) :: i == |h| - 1
    ensures |h| <= 6
  {
    forall i | 0 <= i < |h| && IsTerminal(h[i]) ensures i == |h| - 1 {
      if i < |h| - 1 { HistoryRises(h, i, |h| - 1); }
    }
    if |h| > 6 {
      HistoryRises(h, 0, 1); HistoryRises(h, 1, 2); HistoryRises(h, 2, 3);
      HistoryRises(h, 3, 4); HistoryRises(h, 4, 5); HistoryRises(h, 5, 6);
    }
  }
}
