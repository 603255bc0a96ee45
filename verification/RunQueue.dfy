/**
 The run queue: runs that share a workspace or a session of one owner wait for each other
 through chains of promise tails. One step stands for one stretch of code that runs
 without awaiting; any interleaving of steps is a possible history.
 */
module RunQueue {
  import opened Wrappers
  import opened JsonText
  import opened RunKeys
  import opened RunStates

  type RunId(==, !new) = nat

  datatype Run = Run(owner: Owner, workspaceId: Text, sessionId: Option<Text>, deadline: real)

  /** Where a queued run's promise stands; a settled tail is cleaned up in a later stretch. */
  datatype Phase = Waiting(predecessors: set<RunId>) | Executing | Settled | Cleaned

  /** What `#enqueue` captured for one run: its place in the enqueue order, its keys, its promise. */
  datatype Ticket = Ticket(number: nat, keys: seq<Text>, phase: Phase)

  /** Everything about waiting: the tails, the tickets, and the history of execution starts. */
  datatype Line = Line(tails: map<Text, RunId>, tickets: map<RunId, Ticket>, starts: seq<RunId>)

  datatype Queue = Queue(runs: map<RunId, Run>, statuses: map<RunId, RunStatus>, line: Line)

  datatype Step =
    | Create(id: RunId, run: Run)
    | Enqueue(id: RunId, now: int)
    | QueueTimeout(id: RunId)
    | Cancel(id: RunId)
    | Progress(id: RunId, status: RunStatus)
    | Start(id: RunId)
    | Finish(id: RunId)
    | Cleanup(id: RunId)

  const EMPTY := Queue(map[], map[], Line(map[], map[], []))

  function KeysOf(run: Run): seq<Text> {
    [QueueKey(run.owner, Workspace, run.workspaceId)]
    + if run.sessionId.Some? then [QueueKey(run.owner, Session, run.sessionId.value)] else []
  }

  predicate Waits(l: Line, id: RunId) { id in l.tickets && l.tickets[id].phase.Waiting? }

  predicate Executes(l: Line, id: RunId) { id in l.tickets && l.tickets[id].phase.Executing? }

  predicate Done(l: Line, id: RunId) {
    id in l.tickets && (l.tickets[id].phase.Settled? || l.tickets[id].phase.Cleaned?)
  }

  // ---- the line

  function PredecessorsOf(tails: map<Text, RunId>, keys: seq<Text>): set<RunId> {
    set k | k in keys && k in tails :: tails[k]
  }

  function WithTails(tails: map<Text, RunId>, keys: seq<Text>, id: RunId): map<Text, RunId>
    decreases |keys|
  {
    if keys == [] then tails else WithTails(tails[keys[0] := id], keys[1..], id)
  }

  function WithoutTails(tails: map<Text, RunId>, keys: seq<Text>, id: RunId): map<Text, RunId>
    decreases |keys|
  {
    if keys == [] then tails
    else WithoutTails(if keys[0] in tails && tails[keys[0]] == id then tails - {keys[0]} else tails, keys[1..], id)
  }

  function Join(l: Line, id: RunId, keys: seq<Text>): Line {
    Line(WithTails(l.tails, keys, id),
         l.tickets[id := Ticket(|l.tickets|, keys, Waiting(PredecessorsOf(l.tails, keys)))],
         l.starts)
  }

  function WithPhase(l: Line, id: RunId, phase: Phase): Line
    requires id in l.tickets
  {
    l.(tickets := l.tickets[id := l.tickets[id].(phase := phase)])
  }

  predicate Ready(l: Line, id: RunId) { Waits(l, id) && forall p | p in l.tickets[id].phase.predecessors :: Done(l, p) }

  function Begin(l: Line, id: RunId, execute: bool): Line
    requires Waits(l, id)
  {
    if execute then WithPhase(l, id, Executing).(starts := l.starts + [id]) else WithPhase(l, id, Settled)
  }

  function Leave(l: Line, id: RunId): Line
    requires id in l.tickets
  {
    WithPhase(l, id, Cleaned).(tails := WithoutTails(l.tails, l.tickets[id].keys, id))
  }

  // ---- the steps

  predicate MayChange(q: Queue, id: RunId, to: RunStatus) { id in q.statuses && MayMove(q.statuses[id], to) }

  /** A transition that the table may refuse, in which case nothing is written. */
  function Moved(q: Queue, id: RunId, to: RunStatus): Queue {
    if MayChange(q, id, to) then q.(statuses := q.statuses[id := to]) else q
  }

  function CreateStep(q: Queue, id: RunId, run: Run): Queue {
    if id in q.runs then q else q.(runs := q.runs[id := run], statuses := q.statuses[id := Accepted])
  }

  function EnqueueStep(q: Queue, id: RunId, now: int): Queue {
    if id !in q.runs || !MayChange(q, id, Queued) then q
    else if q.runs[id].deadline - now as real <= 0.0 then Moved(Moved(q, id, Queued), id, TimedOut)
    else Moved(q, id, Queued).(line := Join(q.line, id, KeysOf(q.runs[id])))
  }

  function QueueTimeoutStep(q: Queue, id: RunId): Queue {
    if id in q.statuses && q.statuses[id] == Queued then Moved(q, id, TimedOut) else q
  }

  /** An executing run is only signalled; any other is moved to CANCELLED at once. RunCancel has its descendants. */
  function CancelStep(q: Queue, id: RunId): Queue {
    if Executes(q.line, id) then q else Moved(q, id, Cancelled)
  }

  /** What an execution makes of its own run. */
  function ProgressStep(q: Queue, id: RunId, status: RunStatus): Queue {
    if Executes(q.line, id) then Moved(q, id, status) else q
  }

  /** All predecessors have settled: a run that is terminal by now is skipped, any other executes. */
  function StartStep(q: Queue, id: RunId): Queue {
    if Ready(q.line, id)
    then q.(line := Begin(q.line, id, id in q.statuses && !IsTerminal(q.statuses[id])))
    else q
  }

  function FinishStep(q: Queue, id: RunId): Queue {
    if Executes(q.line, id) then q.(line := WithPhase(q.line, id, Settled)) else q
  }

  function CleanupStep(q: Queue, id: RunId): Queue {
    if id in q.line.tickets && q.line.tickets[id].phase.Settled? then q.(line := Leave(q.line, id)) else q
  }

  function Next(q: Queue, step: Step): Queue {
    match step
    case Create(id, run) => CreateStep(q, id, run)
    case Enqueue(id, now) => EnqueueStep(q, id, now)
    case QueueTimeout(id) => QueueTimeoutStep(q, id)
    case Cancel(id) => CancelStep(q, id)
    case Progress(id, status) => ProgressStep(q, id, status)
    case Start(id) => StartStep(q, id)
    case Finish(id) => FinishStep(q, id)
    case Cleanup(id) => CleanupStep(q, id)
  }

  /** The state after a history of steps. */
  function After(steps: seq<Step>): Queue {
    if steps == [] then EMPTY else Next(After(steps[..|steps| - 1]), steps[|steps| - 1])
  }

  // ---- the invariant

  predicate HasKey(l: Line, id: RunId, k: Text) { id in l.tickets && k in l.tickets[id].keys }

  ghost predicate Shares(l: Line, a: RunId, b: RunId) { exists k :: HasKey(l, a, k) && HasKey(l, b, k) }

  predicate Earlier(l: Line, a: RunId, b: RunId) {
    a in l.tickets && b in l.tickets && l.tickets[a].number < l.tickets[b].number
  }

  ghost predicate Numbered(l: Line) {
    && (forall a | a in l.tickets :: l.tickets[a].number < |l.tickets|)
    && (forall a, b | a in l.tickets && b in l.tickets && a != b :: l.tickets[a].number != l.tickets[b].number)
  }

  /** A run that has left the waiting line finds every earlier run it shares a key with done. */
  ghost predicate EarlierDone(l: Line) {
    forall a, b, k | Earlier(l, a, b) && HasKey(l, a, k) && HasKey(l, b, k) && !Waits(l, b) :: Done(l, a)
  }

  /** `a` is done, or `b` waits for a run with this key enqueued at or after `a`. */
  ghost predicate Guarded(l: Line, a: RunId, b: RunId, k: Text)
    requires Waits(l, b)
  {
    Done(l, a) || exists p :: p in l.tickets[b].phase.predecessors && HasKey(l, p, k) && (p == a || Earlier(l, a, p))
  }

  ghost predicate WaitersGuarded(l: Line) {
    forall a, b, k | Waits(l, b) && Earlier(l, a, b) && HasKey(l, a, k) && HasKey(l, b, k) :: Guarded(l, a, b, k)
  }

  /** Waits point only to runs enqueued earlier. */
  ghost predicate WaitsPointBack(l: Line) {
    forall b, p | Waits(l, b) && p in l.tickets[b].phase.predecessors :: Earlier(l, p, b)
  }

  /** A key's tail is a run with that key; any run with the key that is not done is at or before it. */
  ghost predicate TailsCurrent(l: Line) {
    && (forall k | k in l.tails :: HasKey(l, l.tails[k], k))
    && (forall a, k | HasKey(l, a, k) && !Done(l, a) :: k in l.tails && (l.tails[k] == a || Earlier(l, a, l.tails[k])))
  }

  /** Executions start in enqueue order between runs that share a key. */
  ghost predicate StartsInOrder(l: Line) {
    && (forall a | a in l.starts :: a in l.tickets && !Waits(l, a))
    && (forall a | Executes(l, a) :: a in l.starts)
    && (forall x, y | 0 <= x < y < |l.starts| && Shares(l, l.starts[x], l.starts[y]) :: Earlier(l, l.starts[x], l.starts[y]))
  }

  ghost predicate LineInv(l: Line) {
    Numbered(l) && EarlierDone(l) && WaitersGuarded(l) && WaitsPointBack(l) && TailsCurrent(l) && StartsInOrder(l)
  }

  /** Every ticket belongs to a known run that has been queued, and holds that run's keys. */
  ghost predicate TicketsKnown(q: Queue) {
    && q.runs.Keys == q.statuses.Keys
    && (forall a | a in q.line.tickets :: a in q.runs && q.statuses[a] != Accepted && q.line.tickets[a].keys == KeysOf(q.runs[a]))
  }

  ghost predicate Inv(q: Queue) { LineInv(q.line) && TicketsKnown(q) }

  lemma {:induction false} WithTailsMeaning(tails: map<Text, RunId>, keys: seq<Text>, id: RunId)
    ensures forall k :: k in WithTails(tails, keys, id) <==> k in tails || k in keys
    ensures forall k | k in WithTails(tails, keys, id) :: WithTails(tails, keys, id)[k] == if k in keys then id else tails[k]
    decreases |keys|
  {
    if keys != [] {
      WithTailsMeaning(tails[keys[0] := id], keys[1..], id);
      assert keys == [keys[0]] + keys[1..];
    }
  }

  lemma {:induction false} WithoutTailsMeaning(tails: map<Text, RunId>, keys: seq<Text>, id: RunId)
    ensures forall k :: k in WithoutTails(tails, keys, id) <==> k in tails && !(k in keys && tails[k] == id)
    ensures forall k | k in WithoutTails(tails, keys, id) :: WithoutTails(tails, keys, id)[k] == tails[k]
    decreases |keys|
  {
    if keys != [] {
      WithoutTailsMeaning(if keys[0] in tails && tails[keys[0]] == id then tails - {keys[0]} else tails, keys[1..], id);
      assert keys == [keys[0]] + keys[1..];
    }
  }

  // Each way the line changes, one part of the invariant at a time.

  lemma JoinAddsOne(l: Line, id: RunId, keys: seq<Text>)
    requires id !in l.tickets
    ensures |Join(l, id, keys).tickets| == |l.tickets| + 1
  {
    var r := Join(l, id, keys);
    assert r.tickets.Keys == l.tickets.Keys + {id};
    assert |r.tickets| == |r.tickets.Keys| && |l.tickets| == |l.tickets.Keys|;
  }

  lemma JoinKeepsNumbers(l: Line, id: RunId, keys: seq<Text>)
    requires Numbered(l) && id !in l.tickets
    ensures Numbered(Join(l, id, keys))
    ensures forall a | a in l.tickets :: Earlier(Join(l, id, keys), a, id)
  {
    JoinAddsOne(l, id, keys);
  }

  lemma JoinKeepsBack(l: Line, id: RunId, keys: seq<Text>)
    requires LineInv(l) && id !in l.tickets
    ensures WaitsPointBack(Join(l, id, keys))
  {
    var r := Join(l, id, keys);
    JoinKeepsNumbers(l, id, keys);
    forall b, p | Waits(r, b) && p in r.tickets[b].phase.predecessors ensures Earlier(r, p, b) {
      if b == id {
        var k :| k in keys && k in l.tails && l.tails[k] == p;
        assert HasKey(l, p, k);
      } else {
        assert Earlier(l, p, b);
      }
    }
  }

  lemma JoinKeepsHolders(l: Line, id: RunId, keys: seq<Text>, k: Text)
    requires TailsCurrent(l) && id !in l.tickets && k in Join(l, id, keys).tails
    ensures HasKey(Join(l, id, keys), Join(l, id, keys).tails[k], k)
  {
    WithTailsMeaning(l.tails, keys, id);
    if k !in keys { assert HasKey(l, l.tails[k], k); }
  }

  lemma JoinKeepsPending(l: Line, id: RunId, keys: seq<Text>, a: RunId, k: Text)
    requires TailsCurrent(l) && Numbered(l) && id !in l.tickets
    requires HasKey(Join(l, id, keys), a, k) && !Done(Join(l, id, keys), a)
    ensures var r := Join(l, id, keys); k in r.tails && (r.tails[k] == a || Earlier(r, a, r.tails[k]))
  {
    WithTailsMeaning(l.tails, keys, id);
    JoinKeepsNumbers(l, id, keys);
    if a != id {
      assert HasKey(l, a, k) && !Done(l, a);
      if k !in keys { assert HasKey(l, l.tails[k], k); }
    }
  }

  lemma JoinKeepsTails(l: Line, id: RunId, keys: seq<Text>)
    requires LineInv(l) && id !in l.tickets
    ensures TailsCurrent(Join(l, id, keys))
  {
    var r := Join(l, id, keys);
    forall k | k in r.tails ensures HasKey(r, r.tails[k], k) { JoinKeepsHolders(l, id, keys, k); }
    forall a, k | HasKey(r, a, k) && !Done(r, a) ensures k in r.tails && (r.tails[k] == a || Earlier(r, a, r.tails[k])) {
      JoinKeepsPending(l, id, keys, a, k);
    }
  }

  lemma JoinKeepsOrder(l: Line, id: RunId, keys: seq<Text>)
    requires LineInv(l) && id !in l.tickets
    ensures EarlierDone(Join(l, id, keys))
  {
    var r := Join(l, id, keys);
    forall a, b, k | Earlier(r, a, b) && HasKey(r, a, k) && HasKey(r, b, k) && !Waits(r, b) ensures Done(r, a) {
      assert Earlier(l, a, b) && HasKey(l, a, k) && HasKey(l, b, k) && !Waits(l, b);
    }
  }

  lemma JoinKeepsGuard(l: Line, id: RunId, keys: seq<Text>, a: RunId, b: RunId, k: Text)
    requires WaitersGuarded(l) && TailsCurrent(l) && id !in l.tickets
    requires var r := Join(l, id, keys); Waits(r, b) && Earlier(r, a, b) && HasKey(r, a, k) && HasKey(r, b, k) && a != id
    ensures Guarded(Join(l, id, keys), a, b, k)
  {
    assert HasKey(l, a, k);
    if b != id {
      assert Guarded(l, a, b, k);
    } else if !Done(l, a) {
      assert l.tails[k] in PredecessorsOf(l.tails, keys);
    }
  }

  lemma JoinKeepsGuards(l: Line, id: RunId, keys: seq<Text>)
    requires LineInv(l) && id !in l.tickets
    ensures WaitersGuarded(Join(l, id, keys))
  {
    var r := Join(l, id, keys);
    JoinKeepsNumbers(l, id, keys);
    forall a, b, k | Waits(r, b) && Earlier(r, a, b) && HasKey(r, a, k) && HasKey(r, b, k) ensures Guarded(r, a, b, k) {
      JoinKeepsGuard(l, id, keys, a, b, k);
    }
  }

  lemma JoinKeepsStarts(l: Line, id: RunId, keys: seq<Text>)
    requires LineInv(l) && id !in l.tickets
    ensures StartsInOrder(Join(l, id, keys))
  {
    var r := Join(l, id, keys);
    forall x, y | 0 <= x < y < |r.starts| && Shares(r, r.starts[x], r.starts[y])
      ensures Earlier(r, r.starts[x], r.starts[y])
    {
      assert r.starts[x] in l.starts && r.starts[y] in l.starts;
      var k :| HasKey(r, r.starts[x], k) && HasKey(r, r.starts[y], k);
      assert HasKey(l, r.starts[x], k) && HasKey(l, r.starts[y], k);
    }
  }

  /** `r` is `l` with one run's phase changed, not to waiting; a run that was done stays done. */
  ghost predicate Advanced(l: Line, r: Line, id: RunId) {
    && id in l.tickets && r.tickets.Keys == l.tickets.Keys
    && (forall a | a in l.tickets && a != id :: r.tickets[a] == l.tickets[a])
    && r.tickets[id] == l.tickets[id].(phase := r.tickets[id].phase)
    && !r.tickets[id].phase.Waiting?
    && (Done(l, id) ==> Done(r, id))
  }

  lemma AdvancedKeepsGuard(l: Line, r: Line, id: RunId, a: RunId, b: RunId, k: Text)
    requires WaitersGuarded(l) && Advanced(l, r, id)
    requires Waits(r, b) && Earlier(r, a, b) && HasKey(r, a, k) && HasKey(r, b, k)
    ensures Guarded(r, a, b, k)
  {
    assert Guarded(l, a, b, k);
    if !Done(l, a) {
      var p :| p in l.tickets[b].phase.predecessors && HasKey(l, p, k) && (p == a || Earlier(l, a, p));
      assert HasKey(r, p, k) && (p == a || Earlier(r, a, p));
    }
  }

  lemma AdvancedKeepsNumbers(l: Line, r: Line, id: RunId)
    requires Numbered(l) && Advanced(l, r, id)
    ensures Numbered(r)
  {
    assert |r.tickets| == |r.tickets.Keys| == |l.tickets|;
  }

  lemma AdvancedKeepsGuards(l: Line, r: Line, id: RunId)
    requires LineInv(l) && Advanced(l, r, id)
    ensures Numbered(r) && WaitersGuarded(r) && WaitsPointBack(r)
  {
    AdvancedKeepsNumbers(l, r, id);
    forall a, b, k | Waits(r, b) && Earlier(r, a, b) && HasKey(r, a, k) && HasKey(r, b, k) ensures Guarded(r, a, b, k) {
      AdvancedKeepsGuard(l, r, id, a, b, k);
    }
  }

  lemma AdvancedSharing(l: Line, r: Line, id: RunId, a: RunId, b: RunId)
    requires Advanced(l, r, id) && Shares(r, a, b)
    ensures Shares(l, a, b)
  {
    var k :| HasKey(r, a, k) && HasKey(r, b, k);
    assert HasKey(l, a, k) && HasKey(l, b, k);
  }

  lemma AdvancedKeepsStarts(l: Line, r: Line, id: RunId)
    requires LineInv(l) && Advanced(l, r, id) && r.starts == l.starts && !r.tickets[id].phase.Executing?
    ensures StartsInOrder(r)
  {
    forall x, y | 0 <= x < y < |r.starts| && Shares(r, r.starts[x], r.starts[y])
      ensures Earlier(r, r.starts[x], r.starts[y])
    {
      AdvancedSharing(l, r, id, r.starts[x], r.starts[y]);
      assert Earlier(l, l.starts[x], l.starts[y]);
    }
  }

  lemma AdvancedKeepsTails(l: Line, r: Line, id: RunId)
    requires LineInv(l) && Advanced(l, r, id) && r.tails == l.tails
    ensures TailsCurrent(r)
  {
    forall a, k | HasKey(r, a, k) && !Done(r, a) ensures k in r.tails && (r.tails[k] == a || Earlier(r, a, r.tails[k])) {
      assert HasKey(l, a, k) && !Done(l, a);
    }
  }

  lemma EarlierAreDone(l: Line, id: RunId, a: RunId, k: Text)
    requires LineInv(l) && Ready(l, id) && Earlier(l, a, id) && HasKey(l, a, k) && HasKey(l, id, k)
    ensures Done(l, a)
  {
    assert Guarded(l, a, id, k);
  }

  lemma BeginKeepsOrder(l: Line, id: RunId, execute: bool)
    requires LineInv(l) && Ready(l, id)
    ensures EarlierDone(Begin(l, id, execute))
  {
    hide Numbered, WaitsPointBack, StartsInOrder;
    var r := Begin(l, id, execute);
    forall a, b, k | Earlier(r, a, b) && HasKey(r, a, k) && HasKey(r, b, k) && !Waits(r, b) ensures Done(r, a) {
      assert Earlier(l, a, b) && HasKey(l, a, k) && HasKey(l, b, k);
      if b == id { EarlierAreDone(l, id, a, k); }
    }
  }

  /** Whoever already started and shares a key with the run that is ready now was enqueued before it. */
  lemma LaterStart(l: Line, id: RunId, a: RunId)
    requires LineInv(l) && Ready(l, id) && a in l.starts && Shares(l, a, id)
    ensures Earlier(l, a, id)
  {
    var k :| HasKey(l, a, k) && HasKey(l, id, k);
    assert a != id && !Waits(l, a) && !Done(l, id);
    assert Earlier(l, a, id) || Earlier(l, id, a);
  }

  lemma BeginKeepsStarts(l: Line, id: RunId, execute: bool)
    requires LineInv(l) && Ready(l, id)
    ensures StartsInOrder(Begin(l, id, execute))
  {
    var r := Begin(l, id, execute);
    forall x, y | 0 <= x < y < |r.starts| && Shares(r, r.starts[x], r.starts[y])
      ensures Earlier(r, r.starts[x], r.starts[y])
    {
      AdvancedSharing(l, r, id, r.starts[x], r.starts[y]);
      assert r.starts[x] in l.starts;
      if y == |l.starts| { LaterStart(l, id, r.starts[x]); }
    }
  }

  lemma AdvancedKeepsOrder(l: Line, r: Line, id: RunId)
    requires LineInv(l) && Advanced(l, r, id) && !Waits(l, id)
    ensures EarlierDone(r)
  {
    forall a, b, k | Earlier(r, a, b) && HasKey(r, a, k) && HasKey(r, b, k) && !Waits(r, b) ensures Done(r, a) {
      assert Earlier(l, a, b) && HasKey(l, a, k) && HasKey(l, b, k) && !Waits(l, b);
    }
  }

  /** While some run with a key is not done, the run holding the key's tail is not done either. */
  lemma TailNotDone(l: Line, a: RunId, k: Text)
    requires LineInv(l) && HasKey(l, a, k) && !Done(l, a)
    ensures k in l.tails && !Done(l, l.tails[k])
  {
    assert HasKey(l, l.tails[k], k);
  }

  lemma LeaveKeepsTails(l: Line, id: RunId)
    requires LineInv(l) && id in l.tickets && l.tickets[id].phase.Settled?
    ensures TailsCurrent(Leave(l, id))
  {
    var r := Leave(l, id);
    WithoutTailsMeaning(l.tails, l.tickets[id].keys, id);
    forall k | k in r.tails ensures HasKey(r, r.tails[k], k) { assert HasKey(l, l.tails[k], k); }
    forall a, k | HasKey(r, a, k) && !Done(r, a) ensures k in r.tails && (r.tails[k] == a || Earlier(r, a, r.tails[k])) {
      assert HasKey(l, a, k) && !Done(l, a);
      TailNotDone(l, a, k);
    }
  }

  lemma JoinKeeps(l: Line, id: RunId, keys: seq<Text>)
    requires LineInv(l) && id !in l.tickets
    ensures LineInv(Join(l, id, keys))
  {
    JoinKeepsNumbers(l, id, keys);
    JoinKeepsBack(l, id, keys);
    JoinKeepsTails(l, id, keys);
    JoinKeepsOrder(l, id, keys);
    JoinKeepsGuards(l, id, keys);
    JoinKeepsStarts(l, id, keys);
  }

  lemma BeginKeeps(l: Line, id: RunId, execute: bool)
    requires LineInv(l) && Ready(l, id)
    ensures LineInv(Begin(l, id, execute))
  {
    var r := Begin(l, id, execute);
    AdvancedKeepsGuards(l, r, id);
    AdvancedKeepsTails(l, r, id);
    BeginKeepsOrder(l, id, execute);
    BeginKeepsStarts(l, id, execute);
  }

  lemma FinishKeeps(l: Line, id: RunId)
    requires LineInv(l) && Executes(l, id)
    ensures LineInv(WithPhase(l, id, Settled))
  {
    var r := WithPhase(l, id, Settled);
    AdvancedKeepsGuards(l, r, id);
    AdvancedKeepsTails(l, r, id);
    AdvancedKeepsOrder(l, r, id);
    AdvancedKeepsStarts(l, r, id);
  }

  lemma LeaveKeeps(l: Line, id: RunId)
    requires LineInv(l) && id in l.tickets && l.tickets[id].phase.Settled?
    ensures LineInv(Leave(l, id))
  {
    var r := Leave(l, id);
    AdvancedKeepsGuards(l, r, id);
    LeaveKeepsTails(l, id);
    AdvancedKeepsOrder(l, r, id);
    AdvancedKeepsStarts(l, r, id);
  }

  lemma MovedKeepsTickets(q: Queue, id: RunId, to: RunStatus)
    requires TicketsKnown(q)
    ensures TicketsKnown(Moved(q, id, to)) && Moved(q, id, to).line == q.line && Moved(q, id, to).runs == q.runs
    ensures id in q.line.tickets ==> !MayChange(q, id, Queued)
  {
    if id in q.line.tickets { assert id in q.runs; }
  }

  lemma JoinedIsKnown(q: Queue, id: RunId)
    requires TicketsKnown(q) && id in q.runs && q.statuses[id] != Accepted
    ensures TicketsKnown(q.(line := Join(q.line, id, KeysOf(q.runs[id]))))
  {}

  lemma EnqueueKeepsTickets(q: Queue, id: RunId, now: int)
    requires TicketsKnown(q)
    ensures TicketsKnown(EnqueueStep(q, id, now))
  {
    MovedKeepsTickets(q, id, Queued);
    var queued := Moved(q, id, Queued);
    MovedKeepsTickets(queued, id, TimedOut);
    if id in q.runs && MayChange(q, id, Queued) { JoinedIsKnown(queued, id); }
  }

  lemma EnqueueKeepsLine(q: Queue, id: RunId, now: int)
    requires TicketsKnown(q) && LineInv(q.line)
    ensures LineInv(EnqueueStep(q, id, now).line)
  {
    MovedKeepsTickets(q, id, Queued);
    MovedKeepsTickets(Moved(q, id, Queued), id, TimedOut);
    if id in q.runs && MayChange(q, id, Queued) { JoinKeeps(q.line, id, KeysOf(q.runs[id])); }
  }

  lemma StartKeepsLine(q: Queue, id: RunId)
    requires LineInv(q.line)
    ensures LineInv(StartStep(q, id).line)
  {
    if Ready(q.line, id) { BeginKeeps(q.line, id, id in q.statuses && !IsTerminal(q.statuses[id])); }
  }

  lemma FinishKeepsLine(q: Queue, id: RunId)
    requires LineInv(q.line)
    ensures LineInv(FinishStep(q, id).line)
  {
    if Executes(q.line, id) { FinishKeeps(q.line, id); }
  }

  lemma CleanupKeepsLine(q: Queue, id: RunId)
    requires LineInv(q.line)
    ensures LineInv(CleanupStep(q, id).line)
  {
    if id in q.line.tickets && q.line.tickets[id].phase.Settled? { LeaveKeeps(q.line, id); }
  }

  lemma NextKeepsTickets(q: Queue, step: Step)
    requires TicketsKnown(q)
    ensures TicketsKnown(Next(q, step))
  {
    match step
    case Create(id, run) =>
    case Enqueue(id, now) => EnqueueKeepsTickets(q, id, now);
    case QueueTimeout(id) => MovedKeepsTickets(q, id, TimedOut);
    case Cancel(id) => MovedKeepsTickets(q, id, Cancelled);
    case Progress(id, status) => MovedKeepsTickets(q, id, status);
    case Start(id) =>
    case Finish(id) =>
    case Cleanup(id) =>
  }

  lemma NextKeepsLine(q: Queue, step: Step)
    requires TicketsKnown(q) && LineInv(q.line)
    ensures LineInv(Next(q, step).line)
  {
    match step
    case Enqueue(id, now) => EnqueueKeepsLine(q, id, now);
    case Start(id) => StartKeepsLine(q, id);
    case Finish(id) => FinishKeepsLine(q, id);
    case Cleanup(id) => CleanupKeepsLine(q, id);
    case _ => SameLine(q, step);
  }

  lemma SameLine(q: Queue, step: Step)
    requires step.Create? || step.QueueTimeout? || step.Cancel? || step.Progress?
    ensures Next(q, step).line == q.line
  {}

  /** No step of any interleaving breaks the invariant. */
  lemma {:induction false} Reachable(steps: seq<Step>)
    ensures Inv(After(steps))
  {
    if steps != [] {
      var before := After(steps[..|steps| - 1]);
      Reachable(steps[..|steps| - 1]);
      NextKeepsTickets(before, steps[|steps| - 1]);
      NextKeepsLine(before, steps[|steps| - 1]);
    }
  }

  // ---- what every history guarantees

  predicate SameResource(a: Run, b: Run) {
    a.owner == b.owner && (a.workspaceId == b.workspaceId || (a.sessionId.Some? && a.sessionId == b.sessionId))
  }

  /** Tickets share a key exactly when their runs have one owner and one workspace or session in common. */
  lemma SharesMeansSameResource(q: Queue, a: RunId, b: RunId)
    requires TicketsKnown(q) && a in q.line.tickets && b in q.line.tickets
    ensures Shares(q.line, a, b) <==> SameResource(q.runs[a], q.runs[b])
  {
    var x, y := q.runs[a], q.runs[b];
    QueueKeysCollideOnlyIfEqual(x.owner, Workspace, x.workspaceId, y.owner, Workspace, y.workspaceId);
    var xs, ys := if x.sessionId.Some? then x.sessionId.value else [], if y.sessionId.Some? then y.sessionId.value else [];
    QueueKeysCollideOnlyIfEqual(x.owner, Workspace, x.workspaceId, y.owner, Session, ys);
    QueueKeysCollideOnlyIfEqual(x.owner, Session, xs, y.owner, Workspace, y.workspaceId);
    QueueKeysCollideOnlyIfEqual(x.owner, Session, xs, y.owner, Session, ys);
    if SameResource(x, y) {
      var k := if x.workspaceId == y.workspaceId then KeysOf(x)[0] else KeysOf(x)[1];
      assert HasKey(q.line, a, k) && HasKey(q.line, b, k);
    }
  }

  lemma OneAtATime(l: Line, a: RunId, b: RunId, k: Text)
    requires LineInv(l) && Executes(l, a) && Executes(l, b) && HasKey(l, a, k) && HasKey(l, b, k)
    ensures a == b
  {
    assert a == b || Earlier(l, a, b) || Earlier(l, b, a);
  }

  /** Two runs of one owner with a workspace or session in common never execute at the same time. */
  lemma NeverTogether(steps: seq<Step>, a: RunId, b: RunId)
    requires a != b && Executes(After(steps).line, a) && Executes(After(steps).line, b)
    ensures var q := After(steps);
      a in q.runs && b in q.runs && !SameResource(q.runs[a], q.runs[b])
  {
    Reachable(steps);
    var q := After(steps);
    SharesMeansSameResource(q, a, b);
    if Shares(q.line, a, b) {
      var k :| HasKey(q.line, a, k) && HasKey(q.line, b, k);
      OneAtATime(q.line, a, b, k);
    }
  }

  /** Executions begin in the order of the enqueues wherever runs share a resource, and no run begins twice. */
  lemma StartsFollowEnqueues(steps: seq<Step>, x: nat, y: nat)
    requires var q := After(steps); x < y < |q.line.starts|
    ensures var q := After(steps);
      var a, b := q.line.starts[x], q.line.starts[y];
      a != b && a in q.runs && b in q.runs && (SameResource(q.runs[a], q.runs[b]) ==> Earlier(q.line, a, b))
  {
    Reachable(steps);
    var q := After(steps);
    var a, b := q.line.starts[x], q.line.starts[y];
    SharesMeansSameResource(q, a, b);
    if a == b { assert SameResource(q.runs[a], q.runs[b]); }
  }

  /** Waits cannot deadlock: behind any run that is not done there is one that executes or may start. */
  lemma {:induction false} SomeRunCanMove(steps: seq<Step>, id: RunId) returns (next: RunId)
    requires id in After(steps).line.tickets && !Done(After(steps).line, id)
    ensures Executes(After(steps).line, next) || Ready(After(steps).line, next)
    ensures next == id || Earlier(After(steps).line, next, id)
    decreases After(steps).line.tickets[id].number
  {
    Reachable(steps);
    var l := After(steps).line;
    if Executes(l, id) || Ready(l, id) {
      next := id;
    } else {
      var p :| p in l.tickets[id].phase.predecessors && !Done(l, p);
      assert Earlier(l, p, id);
      next := SomeRunCanMove(steps, p);
    }
  }

  /** When a run's turn comes, everything enqueued before it on a shared resource is over. */
  lemma TurnComesLast(steps: seq<Step>, a: RunId, b: RunId)
    requires var q := After(steps);
      a in q.runs && b in q.runs && SameResource(q.runs[a], q.runs[b])
      && Earlier(q.line, a, b) && (Ready(q.line, b) || !Waits(q.line, b))
    ensures Done(After(steps).line, a)
  {
    Reachable(steps);
    var q := After(steps);
    SharesMeansSameResource(q, a, b);
    var k :| HasKey(q.line, a, k) && HasKey(q.line, b, k);
    if Ready(q.line, b) { EarlierAreDone(q.line, b, a, k); }
  }

  // ---- what each step makes of a run

  lemma OneStep(steps: seq<Step>, s: Step)
    ensures After(steps + [s]) == Next(After(steps), s)
  {
    assert (steps + [s])[..|steps|] == steps;
  }

  /** Waiting is for runs with a key in common only. */
  ghost predicate WaitsShare(l: Line) {
    forall b, p | Waits(l, b) && p in l.tickets[b].phase.predecessors :: Shares(l, p, b)
  }

  lemma JoinWaitsShare(l: Line, id: RunId, keys: seq<Text>)
    requires LineInv(l) && WaitsShare(l) && id !in l.tickets
    ensures WaitsShare(Join(l, id, keys))
  {
    var r := Join(l, id, keys);
    forall b, p | Waits(r, b) && p in r.tickets[b].phase.predecessors ensures Shares(r, p, b) {
      if b == id {
        var k :| k in keys && k in l.tails && l.tails[k] == p;
        assert HasKey(l, p, k);
        assert HasKey(r, p, k) && HasKey(r, id, k);
      } else {
        assert Shares(l, p, b);
        var k :| HasKey(l, p, k) && HasKey(l, b, k);
        assert HasKey(r, p, k) && HasKey(r, b, k);
      }
    }
  }

  lemma AdvancedWaitsShare(l: Line, r: Line, id: RunId)
    requires WaitsShare(l) && Advanced(l, r, id)
    ensures WaitsShare(r)
  {
    forall b, p | Waits(r, b) && p in r.tickets[b].phase.predecessors ensures Shares(r, p, b) {
      assert Waits(l, b) && Shares(l, p, b);
      var k :| HasKey(l, p, k) && HasKey(l, b, k);
      assert HasKey(r, p, k) && HasKey(r, b, k);
    }
  }

  /** A tail never outlives its run's clean-up. */
  ghost predicate TailsLive(l: Line) { forall k | k in l.tails :: l.tails[k] in l.tickets && !l.tickets[l.tails[k]].phase.Cleaned? }

  lemma LeaveTailsLive(l: Line, id: RunId)
    requires LineInv(l) && TailsLive(l) && id in l.tickets && l.tickets[id].phase.Settled?
    ensures TailsLive(Leave(l, id))
  {
    var r := Leave(l, id);
    WithoutTailsMeaning(l.tails, l.tickets[id].keys, id);
    forall k | k in r.tails ensures r.tails[k] in r.tickets && !r.tickets[r.tails[k]].phase.Cleaned? {
      assert HasKey(l, l.tails[k], k);
    }
  }

  /** A run that waits was queued, and was neither started nor anything but cancelled or timed out since. */
  ghost predicate WaitersQueued(q: Queue) {
    forall id | Waits(q.line, id) ::
      id in q.statuses && (q.statuses[id].Queued? || q.statuses[id].Cancelled? || q.statuses[id].TimedOut?)
  }

  ghost predicate Extra(q: Queue) { WaitsShare(q.line) && TailsLive(q.line) && WaitersQueued(q) }

  /** The line after a step that changes it: one run joined, moved to another phase, or left. */
  lemma StepWaitsShare(q: Queue, s: Step)
    requires Inv(q) && WaitsShare(q.line)
    ensures WaitsShare(Next(q, s).line)
  {
    hide Numbered, EarlierDone, WaitersGuarded, WaitsPointBack, TailsCurrent, StartsInOrder, WaitsShare, Join, KeysOf;
    match s
    case Enqueue(id, now) =>
      MovedKeepsTickets(q, id, Queued);
      MovedKeepsTickets(Moved(q, id, Queued), id, TimedOut);
      if id in q.runs && MayChange(q, id, Queued) { JoinWaitsShare(q.line, id, KeysOf(q.runs[id])); }
    case Start(id) => if Ready(q.line, id) { AdvancedWaitsShare(q.line, Next(q, s).line, id); }
    case Finish(id) => if Executes(q.line, id) { AdvancedWaitsShare(q.line, Next(q, s).line, id); }
    case Cleanup(id) =>
      if id in q.line.tickets && q.line.tickets[id].phase.Settled? { AdvancedWaitsShare(q.line, Next(q, s).line, id); }
    case _ => SameLine(q, s);
  }

  lemma JoinTailsLive(l: Line, id: RunId, keys: seq<Text>)
    requires TailsLive(l)
    ensures TailsLive(Join(l, id, keys))
  {
    WithTailsMeaning(l.tails, keys, id);
  }

  lemma StepTailsLive(q: Queue, s: Step)
    requires Inv(q) && TailsLive(q.line)
    ensures TailsLive(Next(q, s).line)
  {
    hide Numbered, EarlierDone, WaitersGuarded, WaitsPointBack, TailsCurrent, StartsInOrder, Join, Leave, KeysOf;
    match s
    case Enqueue(id, now) =>
      MovedKeepsTickets(q, id, Queued);
      MovedKeepsTickets(Moved(q, id, Queued), id, TimedOut);
      if id in q.runs && MayChange(q, id, Queued) { JoinTailsLive(q.line, id, KeysOf(q.runs[id])); }
    case Start(id) =>
    case Finish(id) =>
    case Cleanup(id) =>
      if id in q.line.tickets && q.line.tickets[id].phase.Settled? { LeaveTailsLive(q.line, id); }
    case _ => SameLine(q, s);
  }

  /** Nobody begins to wait, and statuses stay or move to where a waiting run may stand. */
  lemma FewerWaiters(q: Queue, r: Queue)
    requires WaitersQueued(q)
    requires forall id | Waits(r.line, id) ::
      Waits(q.line, id) && id in r.statuses &&
      (r.statuses[id] == q.statuses[id] || r.statuses[id].Cancelled? || r.statuses[id].TimedOut?)
    ensures WaitersQueued(r)
  {}

  lemma EnqueueWaitersQueued(q: Queue, id: RunId, now: int)
    requires TicketsKnown(q) && WaitersQueued(q)
    ensures WaitersQueued(EnqueueStep(q, id, now))
  {
    hide KeysOf, WithTails, PredecessorsOf;
    MovedKeepsTickets(q, id, Queued);
  }

  lemma StepWaitersQueued(q: Queue, s: Step)
    requires TicketsKnown(q) && WaitersQueued(q)
    ensures WaitersQueued(Next(q, s))
  {
    hide KeysOf, WithTails, WithoutTails, PredecessorsOf, EnqueueStep;
    match s
    case Enqueue(id, now) => EnqueueWaitersQueued(q, id, now);
    case _ => FewerWaiters(q, Next(q, s));
  }

  lemma NothingIsExtra(q: Queue)
    requires q == EMPTY
    ensures Extra(q)
  {}

  lemma {:induction false} ExtraReachable(steps: seq<Step>)
    ensures Extra(After(steps))
  {
    hide WaitsShare, TailsLive, WaitersQueued, Inv, Next;
    if steps == [] {
      NothingIsExtra(After(steps));
    } else {
      var before, last := steps[..|steps| - 1], steps[|steps| - 1];
      Reachable(before);
      ExtraReachable(before);
      StepWaitsShare(After(before), last);
      StepTailsLive(After(before), last);
      StepWaitersQueued(After(before), last);
    }
  }

  /**
   An enqueued run whose deadline lies ahead waits in the next place, for runs that share something with it;
   one whose deadline has passed times out and never waits. A run is enqueued once.
   */
  lemma EnqueuedWaitsIffInTime(steps: seq<Step>, id: RunId, now: int)
    requires id in After(steps).runs
    ensures
      var q, r := After(steps), After(steps + [Enqueue(id, now)]);
      && id in q.statuses && id in r.statuses
      && (q.statuses[id] != Accepted ==> r == q)
      && (q.statuses[id] == Accepted && q.runs[id].deadline > now as real ==>
            && id !in q.line.tickets && Waits(r.line, id) && r.statuses == q.statuses[id := Queued]
            && r.line.tickets[id].number == |q.line.tickets| && r.line.starts == q.line.starts
            && forall a | a in q.line.tickets :: r.line.tickets[a] == q.line.tickets[a])
      && (q.statuses[id] == Accepted && q.runs[id].deadline <= now as real ==>
            id !in r.line.tickets && r.line == q.line && r.statuses == q.statuses[id := TimedOut])
  {
    hide LineInv, After, Inv;
    OneStep(steps, Enqueue(id, now));
    Reachable(steps);
    EnqueueMeans(After(steps), id, now);
  }

  lemma EnqueueMeans(q: Queue, id: RunId, now: int)
    requires Inv(q) && id in q.runs
    ensures
      var r := EnqueueStep(q, id, now);
      && id in q.statuses && id in r.statuses
      && (q.statuses[id] != Accepted ==> r == q)
      && (q.statuses[id] == Accepted && q.runs[id].deadline > now as real ==>
            && id !in q.line.tickets && Waits(r.line, id) && r.statuses == q.statuses[id := Queued]
            && r.line.tickets[id].number == |q.line.tickets| && r.line.starts == q.line.starts
            && forall a | a in q.line.tickets :: r.line.tickets[a] == q.line.tickets[a])
      && (q.statuses[id] == Accepted && q.runs[id].deadline <= now as real ==>
            id !in r.line.tickets && r.line == q.line && r.statuses == q.statuses[id := TimedOut])
  {
    hide LineInv, KeysOf, WithTails;
    MovedKeepsTickets(q, id, Queued);
  }

  lemma ReadyMeans(q: Queue, b: RunId)
    requires Inv(q) && Extra(q) && Waits(q.line, b)
    ensures Ready(q.line, b) <==>
      forall a | a in q.runs && Earlier(q.line, a, b) && SameResource(q.runs[a], q.runs[b]) :: Done(q.line, a)
  {
    if Ready(q.line, b) {
      forall a | a in q.runs && Earlier(q.line, a, b) && SameResource(q.runs[a], q.runs[b]) ensures Done(q.line, a) {
        SharesMeansSameResource(q, a, b);
        var k :| HasKey(q.line, a, k) && HasKey(q.line, b, k);
        EarlierAreDone(q.line, b, a, k);
      }
    } else {
      var p :| p in q.line.tickets[b].phase.predecessors && !Done(q.line, p);
      assert Earlier(q.line, p, b) && Shares(q.line, p, b);
      SharesMeansSameResource(q, p, b);
    }
  }

  /** A run's turn has come exactly when all that was enqueued before it on a shared resource is over. */
  lemma TurnComesIff(steps: seq<Step>, b: RunId)
    requires Waits(After(steps).line, b)
    ensures
      var q := After(steps);
      && b in q.runs
      && (Ready(q.line, b) <==>
            forall a | a in q.runs && Earlier(q.line, a, b) && SameResource(q.runs[a], q.runs[b]) :: Done(q.line, a))
  {
    Reachable(steps);
    ExtraReachable(steps);
    ReadyMeans(After(steps), b);
  }

  /**
   When its turn has come, a run that is still queued executes; one that was cancelled or timed out while
   it waited is done without. Before its turn has come, nothing happens.
   */
  lemma TurnGoesTo(steps: seq<Step>, id: RunId)
    requires Waits(After(steps).line, id)
    ensures
      var q, r := After(steps), After(steps + [Start(id)]);
      && id in q.statuses && r.statuses == q.statuses && id !in q.line.starts
      && (!Ready(q.line, id) ==> r == q)
      && (Ready(q.line, id) && q.statuses[id] == Queued ==>
            Executes(r.line, id) && r.line.starts == q.line.starts + [id])
      && (Ready(q.line, id) && q.statuses[id] != Queued ==>
            IsTerminal(q.statuses[id]) && Done(r.line, id) && r.line.starts == q.line.starts)
      && forall a | a in q.line.tickets && a != id :: a in r.line.tickets && r.line.tickets[a] == q.line.tickets[a]
  {
    hide After, Inv, Extra;
    OneStep(steps, Start(id));
    Reachable(steps);
    ExtraReachable(steps);
    StartMeans(After(steps), id);
  }

  lemma StartMeans(q: Queue, id: RunId)
    requires Inv(q) && Extra(q) && Waits(q.line, id)
    ensures
      var r := StartStep(q, id);
      && id in q.statuses && r.statuses == q.statuses && id !in q.line.starts
      && (!Ready(q.line, id) ==> r == q)
      && (Ready(q.line, id) && q.statuses[id] == Queued ==>
            Executes(r.line, id) && r.line.starts == q.line.starts + [id])
      && (Ready(q.line, id) && q.statuses[id] != Queued ==>
            IsTerminal(q.statuses[id]) && Done(r.line, id) && r.line.starts == q.line.starts)
      && forall a | a in q.line.tickets && a != id :: a in r.line.tickets && r.line.tickets[a] == q.line.tickets[a]
  {
    hide Numbered, EarlierDone, WaitersGuarded, WaitsPointBack, TailsCurrent, TicketsKnown, WaitsShare, TailsLive;
  }

  /** A run that is over although it still waits, or has waited, without having begun. */
  predicate Skipped(q: Queue, id: RunId) {
    id in q.line.tickets && id in q.statuses && IsTerminal(q.statuses[id]) && !Executes(q.line, id) && id !in q.line.starts
  }

  lemma StepKeepsSkipped(q: Queue, s: Step, id: RunId)
    requires TicketsKnown(q) && Skipped(q, id)
    ensures Skipped(Next(q, s), id)
  {
    hide KeysOf, WithTails, WithoutTails, PredecessorsOf;
    if s.Enqueue? { MovedKeepsTickets(q, s.id, Queued); }
  }

  lemma {:induction false} SkippedLast(steps: seq<Step>, more: seq<Step>, id: RunId)
    requires Skipped(After(steps), id)
    ensures Skipped(After(steps + more), id)
    decreases |more|
  {
    hide Next, Inv, Skipped;
    if more == [] {
      assert steps + more == steps;
    } else {
      var before, last := more[..|more| - 1], more[|more| - 1];
      SkippedLast(steps, before, id);
      Reachable(steps + before);
      assert steps + more == (steps + before) + [last];
      OneStep(steps + before, last);
      StepKeepsSkipped(After(steps + before), last, id);
    }
  }

  /** A run that is cancelled or times out while it waits never begins. */
  lemma CancelledWhileWaiting(steps: seq<Step>, end: Step, more: seq<Step>, id: RunId)
    requires Waits(After(steps).line, id) && (end == Cancel(id) || end == QueueTimeout(id))
    ensures
      var q, r := After(steps), After(steps + [end]);
      && id in q.statuses && id in r.statuses
      && r.line == q.line && IsTerminal(r.statuses[id])
      && (q.statuses[id] == Queued ==> r.statuses[id] == if end.Cancel? then Cancelled else TimedOut)
      && id !in After(steps + [end] + more).line.starts
  {
    hide After, Inv, Extra;
    OneStep(steps, end);
    Reachable(steps);
    ExtraReachable(steps);
    OutsideMeans(After(steps), end, id);
    SkippedLast(steps + [end], more, id);
  }

  lemma OutsideMeans(q: Queue, end: Step, id: RunId)
    requires Inv(q) && Extra(q) && Waits(q.line, id) && (end == Cancel(id) || end == QueueTimeout(id))
    ensures
      var r := Next(q, end);
      && id in q.statuses && id in r.statuses && r.line == q.line && IsTerminal(r.statuses[id]) && Skipped(r, id)
      && (q.statuses[id] == Queued ==> r.statuses[id] == if end.Cancel? then Cancelled else TimedOut)
  {
    hide Numbered, EarlierDone, WaitersGuarded, WaitsPointBack, TailsCurrent, TicketsKnown, WaitsShare, TailsLive;
  }

  /** A cancellation leaves an executing run to its execution and ends any other that can still be cancelled. */
  lemma CancelMeans(steps: seq<Step>, id: RunId)
    requires id in After(steps).statuses
    ensures
      var q, r := After(steps), After(steps + [Cancel(id)]);
      r == if !Executes(q.line, id) && !IsTerminal(q.statuses[id]) && q.statuses[id] != Checkpointing
           then q.(statuses := q.statuses[id := Cancelled]) else q
  {
    OneStep(steps, Cancel(id));
  }

  /** The queue's timer ends a run only while that is queued. */
  lemma QueueTimeoutMeans(steps: seq<Step>, id: RunId)
    requires id in After(steps).statuses
    ensures
      var q, r := After(steps), After(steps + [QueueTimeout(id)]);
      r == if q.statuses[id] == Queued then q.(statuses := q.statuses[id := TimedOut]) else q
  {
    OneStep(steps, QueueTimeout(id));
  }

  /** A run begins as ACCEPTED, once; an execution moves its own run as the table allows, and no other does. */
  lemma CreatedAndMoved(steps: seq<Step>, id: RunId, run: Run, status: RunStatus)
    ensures
      var q, r := After(steps), After(steps + [Create(id, run)]);
      r == if id in q.runs then q else q.(runs := q.runs[id := run], statuses := q.statuses[id := Accepted])
    ensures
      var q, r := After(steps), After(steps + [Progress(id, status)]);
      r == if Executes(q.line, id) && id in q.statuses && MayMove(q.statuses[id], status)
           then q.(statuses := q.statuses[id := status]) else q
  {
    OneStep(steps, Create(id, run));
    OneStep(steps, Progress(id, status));
  }

  /** An execution that has ended is done, and so is its clean-up: no tail of the run's own is left behind. */
  lemma EndsAndIsForgotten(steps: seq<Step>, id: RunId)
    requires Executes(After(steps).line, id)
    ensures
      var q, r, c := After(steps), After(steps + [Finish(id)]), After(steps + [Finish(id)] + [Cleanup(id)]);
      && Done(r.line, id) && Done(c.line, id) && r.statuses == q.statuses == c.statuses
      && r.line.starts == q.line.starts == c.line.starts && r.line.tails == q.line.tails
      && (forall k :: k in c.line.tails <==> k in q.line.tails && q.line.tails[k] != id)
      && (forall k | k in c.line.tails :: c.line.tails[k] == q.line.tails[k])
  {
    hide After, LineInv, Inv;
    OneStep(steps, Finish(id));
    OneStep(steps + [Finish(id)], Cleanup(id));
    Reachable(steps + [Finish(id)]);
    EndMeans(After(steps), id);
  }

  lemma EndMeans(q: Queue, id: RunId)
    requires Executes(q.line, id) && Inv(FinishStep(q, id))
    ensures
      var r := FinishStep(q, id);
      var c := CleanupStep(r, id);
      && Done(r.line, id) && Done(c.line, id) && r.statuses == q.statuses == c.statuses
      && r.line.starts == q.line.starts == c.line.starts && r.line.tails == q.line.tails
      && (forall k :: k in c.line.tails <==> k in q.line.tails && q.line.tails[k] != id)
      && (forall k | k in c.line.tails :: c.line.tails[k] == q.line.tails[k])
  {
    hide Numbered, EarlierDone, WaitersGuarded, WaitsPointBack, StartsInOrder, WithoutTails, TicketsKnown;
    var r := FinishStep(q, id);
    WithoutTailsMeaning(r.line.tails, r.line.tickets[id].keys, id);
    forall k | k in r.line.tails && r.line.tails[k] == id ensures k in r.line.tickets[id].keys {
      assert HasKey(r.line, id, k);
    }
  }

  /** When every run has been cleaned up, no tail is left. */
  lemma NoTailIsLeft(steps: seq<Step>)
    requires forall id | id in After(steps).line.tickets :: After(steps).line.tickets[id].phase.Cleaned?
    ensures After(steps).line.tails == map[]
  {
    ExtraReachable(steps);
    assert forall k :: k !in After(steps).line.tails;
  }

  // ---- the service that takes these steps

  class RunScheduler {
    var runs: map<RunId, Run>
    var statuses: map<RunId, RunStatus>
    var queueTails: map<Text, RunId>
    var tickets: map<RunId, Ticket>
    ghost var starts: seq<RunId>

    ghost function State(): Queue
      reads this
    {
      Queue(runs, statuses, Line(queueTails, tickets, starts))
    }

    constructor ()
      ensures State() == EMPTY
    {
      runs, statuses, queueTails, tickets, starts := map[], map[], map[], map[], [];
    }

    method CreateRun(id: RunId, run: Run) returns (created: bool)
      modifies this`runs, this`statuses
      ensures State() == CreateStep(old(State()), id, run) && created == (id !in old(runs))
    {
      if id in runs { return false; }
      runs := runs[id := run];
      statuses := statuses[id := Accepted];
      created := true;
    }

    /** `#transition`: refuses what the table refuses. */
    method Transition(id: RunId, to: RunStatus) returns (ok: bool)
      modifies this`statuses
      ensures State() == Moved(old(State()), id, to) && ok == MayChange(old(State()), id, to)
    {
      if id !in statuses || !MayMove(statuses[id], to) { return false; }
      statuses := statuses[id := to];
      ok := true;
    }

    /** A transition that the run's own execution makes. */
    method ProgressRun(id: RunId, to: RunStatus) returns (ok: bool)
      requires Executes(State().line, id)
      modifies this`statuses
      ensures State() == ProgressStep(old(State()), id, to)
    {
      ok := Transition(id, to);
    }

    method TimeoutQueuedRun(id: RunId)
      modifies this`statuses
      ensures State() == QueueTimeoutStep(old(State()), id)
    {
      if id !in statuses || statuses[id] != Queued { return; }
      var _ := Transition(id, TimedOut);
    }

    method Enqueue(id: RunId, now: int)
      modifies this`statuses, this`queueTails, this`tickets
      ensures State() == EnqueueStep(old(State()), id, now)
    {
      if id !in runs { return; }
      var ok := Transition(id, Queued);
      if !ok { return; }
      var run := runs[id];
      var keys := KeysOf(run);
      var predecessors := set k | k in keys && k in queueTails :: queueTails[k];
      if run.deadline - now as real <= 0.0 {
        TimeoutQueuedRun(id);
        return;
      }
      tickets := tickets[id := Ticket(|tickets|, keys, Waiting(predecessors))];
      ghost var before := queueTails;
      for i := 0 to |keys|
        invariant WithTails(queueTails, keys[i..], id) == WithTails(before, keys, id)
        invariant tickets == old(tickets)[id := Ticket(|old(tickets)|, keys, Waiting(predecessors))]
        invariant statuses == old(statuses)[id := Queued]
      {
        assert keys[i..][1..] == keys[i + 1..];
        queueTails := queueTails[keys[i] := id];
      }
    }

    method CancelRun(id: RunId)
      modifies this`statuses
      ensures State() == CancelStep(old(State()), id)
    {
      if id in tickets && tickets[id].phase.Executing? { return; }
      var _ := Transition(id, Cancelled);
    }

    /** The continuation that `Promise.allSettled(predecessors)` runs. */
    method PredecessorsSettled(id: RunId)
      requires Ready(State().line, id)
      modifies this`tickets, this`starts
      ensures State() == StartStep(old(State()), id)
    {
      if id !in statuses || IsTerminal(statuses[id]) {
        tickets := tickets[id := tickets[id].(phase := Settled)];
        return;
      }
      tickets := tickets[id := tickets[id].(phase := Executing)];
      starts := starts + [id];
    }

    method ExecutionEnded(id: RunId)
      requires Executes(State().line, id)
      modifies this`tickets
      ensures State() == FinishStep(old(State()), id)
    {
      tickets := tickets[id := tickets[id].(phase := Settled)];
    }

    /** `tail.finally`: forgets the tails that are still this run's own. */
    method TailSettled(id: RunId)
      requires id in tickets && tickets[id].phase.Settled?
      modifies this`tickets, this`queueTails
      ensures State() == CleanupStep(old(State()), id)
    {
      var keys := tickets[id].keys;
      tickets := tickets[id := tickets[id].(phase := Cleaned)];
      ghost var before := queueTails;
      for i := 0 to |keys|
        invariant WithoutTails(queueTails, keys[i..], id) == WithoutTails(before, keys, id)
        invariant tickets == old(tickets)[id := old(tickets)[id].(phase := Cleaned)]
      {
        assert keys[i..][1..] == keys[i + 1..];
        if keys[i] in queueTails && queueTails[keys[i]] == id { queueTails := queueTails - {keys[i]}; }
      }
    }
  }
}
