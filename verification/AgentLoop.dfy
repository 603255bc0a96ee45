/**
 The model turn loop under its run's budget. What the model, the tools and the outside do is a
 script, one entry per await, over which every result below ranges.
 */
module AgentLoop {
  import opened Wrappers
  import opened RunBudgets

  /** Why the run's abort signal fired. */
  datatype Reason = CancelRequested | TimedOut | OverBudget | LeaseLost

  /** The reasons that come from outside the loop. */
  type Outside = r: Reason | r != OverBudget witness CancelRequested

  /** `UsageReport` says what is recorded of a report, and whether it gave a cost that is no amount. */
  datatype ModelEvent =
    | TextDelta
    | ToolCall(name: string)
    | UsageReport(delta: Usage, unusableCost: bool)
    | Completed(wantsTools: bool)

  datatype Failure =
    | Aborted(reason: Reason) | StreamIdle | StreamFailed | StreamTruncated
    | PriceUnknown | UsageMissing | ContextTooLarge | BadArguments | NotAuthorized | BadTimeout | ToolFailed | BadArtifact
    | TurnLimit

  /** How awaiting the stream's next item ends, and whether the signal fires from outside in the meantime. */
  datatype Arrival = Arrival(fires: Option<Outside>, item: Item)

  /** `Lost`: the race was won by the idle timer or by the signal. */
  datatype Item = Next(event: ModelEvent) | Done | Broken | Lost

  /**
   How one tool call goes: the two awaits are authorization and execution. A call that needs an
   approval is refused when the signal has fired by the time the approval would be asked for.
   */
  datatype ToolRun = ToolRun(
    validArguments: bool, needsApproval: bool, firesBefore: Option<Outside>, authorized: bool,
    firesDuring: Option<Outside>, completes: bool, validArtifact: bool)

  datatype Turn = Turn(contextFits: bool, stream: seq<Arrival>, tools: seq<ToolRun>)

  datatype Settings = Settings(budget: Budget, requireUsage: bool, allowUnmetered: bool)

  /** What the inner loop has heard so far. */
  datatype Heard = Heard(calls: seq<string>, finish: Option<bool>, sawUsage: bool)

  /** What one turn's stream amounts to. */
  datatype Collected = Collected(calls: seq<string>, wantsTools: bool)

  /** What the loop does that others can see, each with the usage recorded by then. */
  datatype Act =
    | StartTurn(turn: nat, usage: Usage)
    | Report(delta: Usage)
    | Request(name: string)
    | Execute(name: string, usage: Usage)

  /** An act without the usage noted beside it. */
  datatype Mark = Started | Reported(delta: Usage) | Requested(name: string) | Executed(name: string)

  function MarkOf(a: Act): Mark {
    match a
    case StartTurn(_, _) => Started
    case Report(delta) => Reported(delta)
    case Request(name) => Requested(name)
    case Execute(name, _) => Executed(name)
  }

  const ONE_CALL := Usage(None, None, None, 1)

  function DeltaOf(a: Act): Usage {
    match a
    case Report(delta) => delta
    case Request(_) => ONE_CALL
    case _ => Usage(None, None, None, 0)
  }

  function Total(acts: seq<Act>): Usage {
    if acts == [] then UNREPORTED else PlusUsage(Total(acts[..|acts| - 1]), DeltaOf(acts[|acts| - 1]))
  }

  function TurnsStarted(acts: seq<Act>): nat {
    if acts == [] then 0
    else TurnsStarted(acts[..|acts| - 1]) + if acts[|acts| - 1].StartTurn? then 1 else 0
  }

  function Marks(acts: seq<Act>): seq<Mark> {
    if acts == [] then [] else Marks(acts[..|acts| - 1]) + [MarkOf(acts[|acts| - 1])]
  }

  lemma Appended(acts: seq<Act>, a: Act)
    ensures Marks(acts + [a]) == Marks(acts) + [MarkOf(a)]
    ensures Total(acts + [a]) == PlusUsage(Total(acts), DeltaOf(a))
    ensures TurnsStarted(acts + [a]) == TurnsStarted(acts) + if a.StartTurn? then 1 else 0
    ensures forall b :: IsTrace(acts, b) && MayFollow(acts, a, b) ==> IsTrace(acts + [a], b)
  {
    assert (acts + [a])[..|acts|] == acts;
  }

  lemma CallMarked(acts: seq<Act>, name: string, usage: Usage)
    ensures Marks(acts + [Request(name)] + [Execute(name, usage)]) == Marks(acts) + [Requested(name), Executed(name)]
  {
    Appended(acts, Request(name));
    Appended(acts + [Request(name)], Execute(name, usage));
  }

  /** What may come next after `acts`. */
  predicate MayFollow(acts: seq<Act>, a: Act, b: Budget) {
    match a
    case StartTurn(turn, usage) => turn == TurnsStarted(acts) && usage == Total(acts) && Within(usage, b)
    case Execute(name, usage) => acts != [] && acts[|acts| - 1] == Request(name) && usage == Total(acts)
    case _ => true
  }

  /**
   A turn starts only with the next number and only while nothing recorded exceeds the budget;
   every execution directly follows the request for the same tool, which has been counted.
   */
  predicate IsTrace(acts: seq<Act>, b: Budget) {
    acts == [] || (IsTrace(acts[..|acts| - 1], b) && MayFollow(acts[..|acts| - 1], acts[|acts| - 1], b))
  }

  // ---- what a script amounts to

  /** Where a stream ends, from item `i` on: at the first `Done`. */
  function EndFrom(stream: seq<Arrival>, i: nat): (n: nat)
    requires i <= |stream|
    ensures i <= n <= |stream|
    ensures n < |stream| ==> stream[n].item.Done?
    ensures forall k | i <= k < n :: !stream[k].item.Done?
    decreases |stream| - i
  {
    if i == |stream| || stream[i].item.Done? then i else EndFrom(stream, i + 1)
  }

  function End(stream: seq<Arrival>): nat { EndFrom(stream, 0) }

  lemma EndIsHere(stream: seq<Arrival>, n: nat)
    requires n < |stream| && stream[n].item.Done? && forall i | 0 <= i < n :: stream[i].item.Next?
    ensures End(stream) == n
  {}

  function EventReports(item: Item): seq<Mark> {
    if item.Next? && item.event.UsageReport? then [Reported(item.event.delta)] else []
  }

  function EventCalls(item: Item): seq<string> {
    if item.Next? && item.event.ToolCall? then [item.event.name] else []
  }

  /** The usage reports among the first `n` items. */
  function ReportsOf(stream: seq<Arrival>, n: nat): seq<Mark>
    requires n <= |stream|
  {
    if n == 0 then [] else ReportsOf(stream, n - 1) + EventReports(stream[n - 1].item)
  }

  function CallsOf(stream: seq<Arrival>, n: nat): seq<string>
    requires n <= |stream|
  {
    if n == 0 then [] else CallsOf(stream, n - 1) + EventCalls(stream[n - 1].item)
  }

  /** Each call requested, then executed. */
  function ToolMarks(calls: seq<string>, n: nat): seq<Mark>
    requires n <= |calls|
  {
    if n == 0 then [] else ToolMarks(calls, n - 1) + [Requested(calls[n - 1]), Executed(calls[n - 1])]
  }

  function TurnCalls(t: Turn): seq<string> { CallsOf(t.stream, End(t.stream)) }

  function TurnMarks(t: Turn): seq<Mark> {
    [Started] + ReportsOf(t.stream, End(t.stream)) + ToolMarks(TurnCalls(t), |TurnCalls(t)|)
  }

  function RunMarks(script: seq<Turn>, n: nat): seq<Mark>
    requires n <= |script|
  {
    if n == 0 then [] else RunMarks(script, n - 1) + TurnMarks(script[n - 1])
  }

  lemma Regroup(a: seq<Mark>, b: seq<Mark>, c: seq<Mark>)
    ensures (a + b) + c == a + (b + c)
  {}

  lemma RunMarksNext(script: seq<Turn>, n: nat)
    requires n < |script|
    ensures RunMarks(script, n + 1) == RunMarks(script, n) + TurnMarks(script[n])
  {}

  lemma TurnRegroups(before: seq<Mark>, t: Turn)
    ensures before + TurnMarks(t)
      == ((before + [Started]) + ReportsOf(t.stream, End(t.stream))) + ToolMarks(TurnCalls(t), |TurnCalls(t)|)
  {
    var reports, tools := ReportsOf(t.stream, End(t.stream)), ToolMarks(TurnCalls(t), |TurnCalls(t)|);
    Regroup(before, [Started] + reports, tools);
    Regroup(before, [Started], reports);
  }

  // ---- one turn's stream, whatever becomes of it

  const SILENCE := Heard([], None, false)

  /** What the inner loop has come to, with the usage and the signal as they are then. */
  datatype Hearing<T> = Hearing(result: Result<T, Failure>, usage: Usage, signal: Option<Reason>)

  function Fired(signal: Option<Reason>, reason: Option<Outside>): Option<Reason> {
    if signal.Some? then signal else if reason.Some? then Some(reason.value) else None
  }

  /** One event, and what it leaves. */
  function Heed(event: ModelEvent, h: Heard, u: Usage, signal: Option<Reason>, s: Settings): Hearing<Heard> {
    match event
    case TextDelta => Hearing(Ok(h), u, signal)
    case ToolCall(name) => Hearing(Ok(h.(calls := h.calls + [name])), u, signal)
    case Completed(wantsTools) => Hearing(Ok(h.(finish := Some(wantsTools))), u, signal)
    case UsageReport(delta, unusableCost) =>
      if delta.costUsd.None? && !unusableCost then Hearing(Err(PriceUnknown), u, signal)
      else
        var v := PlusUsage(u, delta);
        Hearing(Ok(h.(sawUsage := true)), v, if signal.None? && !Within(v, s.budget) then Some(OverBudget) else signal)
  }

  /** What a stream that has been read in full amounts to. */
  function Concluded(h: Heard, s: Settings): Result<Collected, Failure> {
    if h.finish.None? then Err(StreamTruncated)
    else if s.requireUsage && !h.sawUsage && !s.allowUnmetered then Err(UsageMissing)
    else Ok(Collected(h.calls, h.finish.value))
  }

  /** The stream from item `i` on. */
  function Hear(
    stream: seq<Arrival>, i: nat, h: Heard, u: Usage, signal: Option<Reason>, s: Settings): Hearing<Collected>
    requires i <= |stream|
    decreases |stream| - i
  {
    if signal.Some? then Hearing(Err(Aborted(signal.value)), u, signal)
    else if i == |stream| then Hearing(Err(StreamFailed), u, signal)
    else
      var now := Fired(signal, stream[i].fires);
      match stream[i].item
      case Lost => Hearing(Err(if now.Some? then Aborted(now.value) else StreamIdle), u, now)
      case Broken => Hearing(Err(StreamFailed), u, now)
      case Done => Hearing(Concluded(h, s), u, now)
      case Next(event) =>
        var heeded := Heed(event, h, u, now, s);
        if heeded.result.Err? then Hearing(Err(heeded.result.error), heeded.usage, heeded.signal)
        else Hear(stream, i + 1, heeded.result.value, heeded.usage, heeded.signal, s)
  }

  /** How a stream fails that gives no further event: as aborted if the signal has fired by then, else for its own reason. */
  lemma StreamFailsAs(stream: seq<Arrival>, i: nat, h: Heard, u: Usage, s: Settings)
    requires i < |stream| && (stream[i].item.Lost? || stream[i].item.Broken?)
    ensures
      Hear(stream, i, h, u, None, s).result == Err(
        if stream[i].item.Broken? then StreamFailed
        else if stream[i].fires.Some? then Aborted(stream[i].fires.value) else StreamIdle)
  {}

  // ---- a turn that asks for another

  const NO_COST := Usage(None, None, Some(0.0), 0)
  const FREE_REPORT := Arrival(None, Next(UsageReport(NO_COST, false)))
  const ASKS_ON := Arrival(None, Next(Completed(true)))
  const STREAM_ENDS := Arrival(None, Done)

  /** Such a turn costs nothing, calls no tool and does not end the run. */
  predicate AsksOn(t: Turn) { t.contextFits && t.stream == [FREE_REPORT, ASKS_ON, STREAM_ENDS] }

  lemma FreeReportFits(u: Usage, b: Budget)
    requires Within(u, b) && b.maxCostUsd >= 0.0
    ensures Within(PlusUsage(u, NO_COST), b)
  {}

  // ---- one turn's calls, whatever becomes of them

  predicate TimeoutFits(s: Settings) {
    IsWhole(s.budget.commandTimeoutMs) && 100.0 <= s.budget.commandTimeoutMs <= 3_600_000.0
  }

  /** The call gets as far as its execution; `fired` says whether the signal has fired before it is authorized. */
  predicate Starts(t: ToolRun, fired: bool, s: Settings) {
    t.validArguments && !(t.needsApproval && fired) && t.authorized && TimeoutFits(s)
  }

  predicate Ends(t: ToolRun) { t.completes && t.validArtifact }

  predicate Fires(t: ToolRun) { t.firesBefore.Some? || t.firesDuring.Some? }

  /** What the calls from number `i` on leave in the trace. */
  function ToolTrace(calls: seq<string>, tools: seq<ToolRun>, i: nat, u: Usage, fired: bool, s: Settings): seq<Act>
    requires i <= |calls|
    decreases |calls| - i
  {
    if i == |calls| || i >= |tools| || !tools[i].validArguments then [] else
    var v := PlusUsage(u, ONE_CALL);
    var firedNow := fired || !Within(v, s.budget);
    if !Starts(tools[i], firedNow, s) then [Request(calls[i])]
    else
      [Request(calls[i]), Execute(calls[i], v)]
      + if Ends(tools[i]) then ToolTrace(calls, tools, i + 1, v, firedNow || Fires(tools[i]), s) else []
  }

  /** Whether the signal has fired from outside before call `k`, when it had or had not before call `i`. */
  predicate FiredBefore(tools: seq<ToolRun>, i: nat, k: nat, fired: bool)
    requires i <= k <= |tools|
  {
    if k == i then fired else FiredBefore(tools, i, k - 1, fired) || Fires(tools[k - 1])
  }

  lemma {:induction false} FiredFrom(tools: seq<ToolRun>, i: nat, k: nat, fired: bool)
    requires i < k <= |tools|
    ensures FiredBefore(tools, i, k, fired) == FiredBefore(tools, i + 1, k, fired || Fires(tools[i]))
    decreases k - i
  {
    if k > i + 1 {
      FiredFrom(tools, i, k - 1, fired);
    } else {
      assert FiredBefore(tools, i, i, fired) == fired;
    }
  }

  /** Calls `i` up to `n` are carried out in full. */
  predicate RunThrough(tools: seq<ToolRun>, i: nat, n: nat, fired: bool, s: Settings)
    requires i <= n <= |tools|
  {
    forall k | i <= k < n :: Starts(tools[k], FiredBefore(tools, i, k, fired), s) && Ends(tools[k])
  }

  /** The call that exceeds the budget is reached, and starts although the signal has fired by then. */
  predicate ExcessStarts(calls: seq<string>, tools: seq<ToolRun>, i: nat, first: nat, fired: bool, s: Settings)
    requires i <= first
  {
    && first < |calls| && first < |tools|
    && RunThrough(tools, i, first, fired, s)
    && tools[first].validArguments && tools[first].authorized && !tools[first].needsApproval && TimeoutFits(s)
  }

  predicate ExecutesBeyond(acts: seq<Act>, b: Budget) { exists a :: a in acts && a.Execute? && !Within(a.usage, b) }

  lemma RunThroughFrom(tools: seq<ToolRun>, i: nat, n: nat, fired: bool, s: Settings)
    requires i < n <= |tools|
    ensures RunThrough(tools, i, n, fired, s) <==>
      Starts(tools[i], fired, s) && Ends(tools[i]) && RunThrough(tools, i + 1, n, fired || Fires(tools[i]), s)
  {
    forall k | i < k < n ensures FiredBefore(tools, i, k, fired) == FiredBefore(tools, i + 1, k, fired || Fires(tools[i])) {
      FiredFrom(tools, i, k, fired);
    }
    assert FiredBefore(tools, i, i, fired) == fired;
  }

  /** A trace that begins with call `i` exceeds the budget there or in the rest. */
  lemma BeyondHere(name: string, v: Usage, rest: seq<Act>, b: Budget)
    ensures ExecutesBeyond([Request(name), Execute(name, v)] + rest, b) <==> !Within(v, b) || ExecutesBeyond(rest, b)
  {
    var trace := [Request(name), Execute(name, v)] + rest;
    assert trace[0] == Request(name) && trace[1] == Execute(name, v) && trace[2..] == rest;
    if ExecutesBeyond(rest, b) {
      var a :| a in rest && a.Execute? && !Within(a.usage, b);
      assert a in trace;
    }
  }

  /** How many calls fit: the budget may hold a fraction of one more. */
  function CallLimit(s: Settings): int { s.budget.maxToolCalls.Floor }

  lemma CountedBeyond(u: Usage, b: Budget)
    requires Within(u, b)
    ensures u.toolCalls <= b.maxToolCalls.Floor
    ensures Within(PlusUsage(u, ONE_CALL), b) <==> u.toolCalls < b.maxToolCalls.Floor
  {
    FloorIsGreatest(u.toolCalls, b.maxToolCalls);
    FloorIsGreatest(u.toolCalls + 1, b.maxToolCalls);
  }

  /** Nothing is executed beyond the budget by calls that stop at the first of them. */
  lemma StopsHere(calls: seq<string>, tools: seq<ToolRun>, i: nat, u: Usage, fired: bool, s: Settings)
    requires i < |calls| && Within(u, s.budget) && u.toolCalls < CallLimit(s)
    requires i < |tools| && tools[i].validArguments && !(Starts(tools[i], fired, s) && Ends(tools[i]))
    ensures !ExecutesBeyond(ToolTrace(calls, tools, i, u, fired, s), s.budget)
  {
    CountedBeyond(u, s.budget);
  }

  /** The call that exceeds the budget is executed beyond it exactly when it starts. */
  lemma ExcessHere(calls: seq<string>, tools: seq<ToolRun>, i: nat, u: Usage, fired: bool, s: Settings)
    requires i < |calls| && Within(u, s.budget) && u.toolCalls == CallLimit(s)
    requires i < |tools| && tools[i].validArguments
    ensures ExecutesBeyond(ToolTrace(calls, tools, i, u, fired, s), s.budget) <==> Starts(tools[i], true, s)
  {
    var v := PlusUsage(u, ONE_CALL);
    CountedBeyond(u, s.budget);
    if Starts(tools[i], true, s) {
      BeyondHere(calls[i], v, if Ends(tools[i]) then ToolTrace(calls, tools, i + 1, v, true, s) else [], s.budget);
    }
  }

  /** The calls from `i` on exceed the budget exactly when those after it do, if it fits and is carried out. */
  lemma FitsHere(calls: seq<string>, tools: seq<ToolRun>, i: nat, u: Usage, fired: bool, s: Settings)
    requires i < |calls| && Within(u, s.budget) && u.toolCalls < CallLimit(s)
    requires i < |tools| && Starts(tools[i], fired, s) && Ends(tools[i])
    ensures
      var v := PlusUsage(u, ONE_CALL);
      && Within(v, s.budget) && v.toolCalls == u.toolCalls + 1
      && (ExecutesBeyond(ToolTrace(calls, tools, i, u, fired, s), s.budget)
          <==> ExecutesBeyond(ToolTrace(calls, tools, i + 1, v, fired || Fires(tools[i]), s), s.budget))
  {
    var v := PlusUsage(u, ONE_CALL);
    CountedBeyond(u, s.budget);
    BeyondHere(calls[i], v, ToolTrace(calls, tools, i + 1, v, fired || Fires(tools[i]), s), s.budget);
  }

  /** Whether the call in excess is reached and starts can be told from call `i` on. */
  lemma ExcessFrom(calls: seq<string>, tools: seq<ToolRun>, i: nat, first: nat, fired: bool, s: Settings)
    requires i <= first
    ensures i == first ==>
      (ExcessStarts(calls, tools, i, first, fired, s) <==> i < |calls| && i < |tools| && Starts(tools[i], true, s))
    ensures i < first && ExcessStarts(calls, tools, i, first, fired, s) ==> i < |calls| && i < |tools|
    ensures i < first && i < |tools| ==>
      (ExcessStarts(calls, tools, i, first, fired, s) <==>
        Starts(tools[i], fired, s) && Ends(tools[i]) && ExcessStarts(calls, tools, i + 1, first, fired || Fires(tools[i]), s))
  {
    if i < first <= |tools| { RunThroughFrom(tools, i, first, fired, s); }
  }

  /** The calls from `i` on are none that count. */
  lemma NothingHere(calls: seq<string>, tools: seq<ToolRun>, i: nat, u: Usage, fired: bool, s: Settings)
    requires i <= |calls| && (i == |calls| || i >= |tools| || !tools[i].validArguments)
    ensures !ExecutesBeyond(ToolTrace(calls, tools, i, u, fired, s), s.budget)
  {}

  lemma {:induction false} BeyondFrom(
    calls: seq<string>, tools: seq<ToolRun>, i: nat, u: Usage, fired: bool, s: Settings, first: nat)
    requires i <= |calls| && Within(u, s.budget) && first == i + CallLimit(s) - u.toolCalls
    ensures ExecutesBeyond(ToolTrace(calls, tools, i, u, fired, s), s.budget)
      <==> ExcessStarts(calls, tools, i, first, fired, s)
    decreases |calls| - i
  {
    ExcessFrom(calls, tools, i, first, fired, s);
    if i == |calls| || i >= |tools| || !tools[i].validArguments {
      NothingHere(calls, tools, i, u, fired, s);
    } else if first == i {
      ExcessHere(calls, tools, i, u, fired, s);
    } else if Starts(tools[i], fired, s) && Ends(tools[i]) {
      FitsHere(calls, tools, i, u, fired, s);
      BeyondFrom(calls, tools, i + 1, PlusUsage(u, ONE_CALL), fired || Fires(tools[i]), s, first);
    } else {
      StopsHere(calls, tools, i, u, fired, s);
    }
  }

  /**
   A turn that begins its calls within the budget executes a tool beyond it exactly when the first call
   whose count passes the tool call budget is reached and starts: the calls that still fit are carried
   out in full, and that one has valid arguments, needs no approval and is authorized.
   */
  lemma ExecutesBeyondIff(calls: seq<string>, tools: seq<ToolRun>, u: Usage, fired: bool, s: Settings)
    requires Within(u, s.budget)
    ensures ExecutesBeyond(ToolTrace(calls, tools, 0, u, fired, s), s.budget)
      <==> ExcessStarts(calls, tools, 0, CallLimit(s) - u.toolCalls, fired, s)
  {
    BeyondFrom(calls, tools, 0, u, fired, s, CallLimit(s) - u.toolCalls);
  }

  const NO_TOOLS := Settings(Budget(1.0, 0.0, 100.0, 100.0, 1.0, 1_000.0, 1_000.0, 1_000.0), false, false)
  const PLAIN_CALL := ToolRun(true, false, None, true, None, true, true)

  const ONCE := Usage(None, None, None, 1)
  const TWICE := Usage(None, None, None, 2)

  lemma PlainCallStarts(fired: bool)
    ensures Starts(PLAIN_CALL, fired, NO_TOOLS) && Ends(PLAIN_CALL)
    ensures !Within(ONCE, NO_TOOLS.budget) && !Within(TWICE, NO_TOOLS.budget)
    ensures PlusUsage(UNREPORTED, ONE_CALL) == ONCE && PlusUsage(ONCE, ONE_CALL) == TWICE
  {}

  lemma SecondCallExecutes(calls: seq<string>, tools: seq<ToolRun>)
    requires calls == ["a", "b"] && tools == [PLAIN_CALL, PLAIN_CALL]
    ensures ToolTrace(calls, tools, 1, ONCE, true, NO_TOOLS) == [Request("b"), Execute("b", TWICE)]
  {
    PlainCallStarts(true);
    assert ToolTrace(calls, tools, 2, TWICE, true, NO_TOOLS) == [];
  }

  /** Such a turn: two plain calls under a budget of none, and both are executed. */
  lemma BothCallsExecuteBeyond(calls: seq<string>, tools: seq<ToolRun>)
    requires calls == ["a", "b"] && tools == [PLAIN_CALL, PLAIN_CALL]
    ensures ToolTrace(calls, tools, 0, UNREPORTED, false, NO_TOOLS)
      == [Request("a"), Execute("a", ONCE)] + [Request("b"), Execute("b", TWICE)]
    ensures !Within(ONCE, NO_TOOLS.budget) && !Within(TWICE, NO_TOOLS.budget)
  {
    PlainCallStarts(true);
    SecondCallExecutes(calls, tools);
  }

  /** The trace of the calls from `i` on is that of call `i`, followed by the rest if it ends well. */
  lemma TraceSplits(
    before: seq<Act>, calls: seq<string>, tools: seq<ToolRun>, i: nat, u: Usage, fired: bool, s: Settings)
    requires i < |calls| && i < |tools| && tools[i].validArguments
    ensures
      var v := PlusUsage(u, ONE_CALL);
      var firedNow := fired || !Within(v, s.budget);
      var one := before + [Request(calls[i])] + if Starts(tools[i], firedNow, s) then [Execute(calls[i], v)] else [];
      before + ToolTrace(calls, tools, i, u, fired, s)
      == if Starts(tools[i], firedNow, s) && Ends(tools[i])
         then one + ToolTrace(calls, tools, i + 1, v, firedNow || Fires(tools[i]), s) else one
  {}

  // ---- when a run succeeds, in terms of what the script holds

  function MarkDelta(m: Mark): Usage {
    match m
    case Reported(delta) => delta
    case Requested(_) => ONE_CALL
    case _ => Usage(None, None, None, 0)
  }

  /** `u` and everything that these marks count. */
  function Added(u: Usage, marks: seq<Mark>): Usage {
    if marks == [] then u else PlusUsage(Added(u, marks[..|marks| - 1]), MarkDelta(marks[|marks| - 1]))
  }

  lemma {:induction false} AddedSplits(u: Usage, a: seq<Mark>, b: seq<Mark>)
    ensures Added(u, a + b) == Added(Added(u, a), b)
  {
    if b == [] {
      assert a + b == a;
    } else {
      var last := b[|b| - 1];
      assert (a + b)[..|a + b| - 1] == a + b[..|b| - 1];
      AddedSplits(u, a, b[..|b| - 1]);
    }
  }

  lemma {:induction false} AddingExceeds(u: Usage, marks: seq<Mark>, b: Budget)
    requires Within(Added(u, marks), b)
    ensures Within(u, b)
  {
    if marks != [] { AddingExceeds(u, marks[..|marks| - 1], b); }
  }

  /** What the last `Completed` among the first `n` items said. */
  function LastCompleted(stream: seq<Arrival>, n: nat): Option<bool>
    requires n <= |stream|
  {
    if n == 0 then None
    else
      var item := stream[n - 1].item;
      if item.Next? && item.event.Completed? then Some(item.event.wantsTools) else LastCompleted(stream, n - 1)
  }

  predicate IsReport(item: Item) { item.Next? && item.event.UsageReport? }

  /** An event, before the signal has fired; a report among them gives a cost, usable or not. */
  predicate Plain(a: Arrival) {
    && a.fires.None? && a.item.Next?
    && (IsReport(a.item) ==> a.item.event.delta.costUsd.Some? || a.item.event.unusableCost)
  }

  predicate Reports(stream: seq<Arrival>, n: nat)
    requires n <= |stream|
  {
    n > 0 && (IsReport(stream[n - 1].item) || Reports(stream, n - 1))
  }

  /** A stream read in full: plain events up to its end, a `Completed` among them, and usage where it is asked for. */
  predicate ReadInFull(stream: seq<Arrival>, s: Settings) {
    var n := End(stream);
    && n < |stream| && (forall i | 0 <= i < n :: Plain(stream[i]))
    && LastCompleted(stream, n).Some?
    && (s.requireUsage && !s.allowUnmetered ==> Reports(stream, n))
  }

  /** A call that is carried out without the signal firing. */
  predicate CarriedOut(t: ToolRun, s: Settings) {
    && t.validArguments && t.authorized && t.completes && t.validArtifact
    && IsWhole(s.budget.commandTimeoutMs) && 100.0 <= s.budget.commandTimeoutMs <= 3_600_000.0
    && t.firesBefore.None? && t.firesDuring.None?
  }

  predicate AllCarriedOut(calls: seq<string>, tools: seq<ToolRun>, s: Settings) {
    |calls| <= |tools| && forall i | 0 <= i < |calls| :: CarriedOut(tools[i], s)
  }

  /** A turn without calls whose last `Completed` asks for none; the signal may fire as its stream ends. */
  predicate Finishes(t: Turn, s: Settings) {
    && t.contextFits && ReadInFull(t.stream, s)
    && TurnCalls(t) == [] && LastCompleted(t.stream, End(t.stream)) == Some(false)
  }

  /** A turn after which another one follows. */
  predicate GoesOn(t: Turn, s: Settings) {
    && t.contextFits && ReadInFull(t.stream, s) && t.stream[End(t.stream)].fires.None?
    && AllCarriedOut(TurnCalls(t), t.tools, s)
    && !(TurnCalls(t) == [] && LastCompleted(t.stream, End(t.stream)) == Some(false))
  }

  /**
   The run comes to its end with turn `n`: all turns before it go on, this one finishes, and what they
   report and call is within the budget together.
   */
  predicate EndsWith(script: seq<Turn>, n: nat, s: Settings) {
    && 0 < n <= |script| && n <= TurnLimitOf(s)
    && (forall k | 0 <= k < n - 1 :: GoesOn(script[k], s)) && Finishes(script[n - 1], s)
    && Within(Added(UNREPORTED, RunMarks(script, n)), s.budget)
  }

  /** What has been heard when the first `n` items are plain. */
  function HeardBy(stream: seq<Arrival>, n: nat): Heard
    requires n <= |stream|
  {
    Heard(CallsOf(stream, n), LastCompleted(stream, n), Reports(stream, n))
  }

  lemma OneMoreHeard(stream: seq<Arrival>, n: nat, u: Usage, s: Settings)
    requires n < |stream| && Plain(stream[n])
    ensures
      var v := Added(u, ReportsOf(stream, n + 1));
      Heed(stream[n].item.event, HeardBy(stream, n), Added(u, ReportsOf(stream, n)), None, s)
      == Hearing(Ok(HeardBy(stream, n + 1)), v,
                 if IsReport(stream[n].item) && !Within(v, s.budget) then Some(OverBudget) else None)
  {
    var all := ReportsOf(stream, n + 1);
    if IsReport(stream[n].item) { assert all[..|all| - 1] == ReportsOf(stream, n); }
    assert CallsOf(stream, n) + [] == CallsOf(stream, n) && ReportsOf(stream, n) + [] == ReportsOf(stream, n);
  }

  /** The stream is read in full, and what it reports fits with what was used before. */
  predicate Accepted(stream: seq<Arrival>, u: Usage, s: Settings) {
    ReadInFull(stream, s) && Within(Added(u, ReportsOf(stream, End(stream))), s.budget)
  }

  lemma PrefixFits(u: Usage, all: seq<Mark>, before: seq<Mark>, more: seq<Mark>, b: Budget)
    requires all == before + more && Within(Added(u, all), b)
    ensures Within(Added(u, before), b)
  {
    AddedSplits(u, before, more);
    AddingExceeds(Added(u, before), more, b);
  }

  /** What is reported before item `i` is reported first. */
  lemma {:induction false} ReportsGrow(stream: seq<Arrival>, i: nat, n: nat) returns (more: seq<Mark>)
    requires i <= n <= |stream|
    ensures ReportsOf(stream, n) == ReportsOf(stream, i) + more
    decreases n
  {
    if i == n {
      more := [];
    } else {
      var rest := ReportsGrow(stream, i, n - 1);
      more := rest + EventReports(stream[n - 1].item);
      Regroup(ReportsOf(stream, i), rest, EventReports(stream[n - 1].item));
    }
  }

  lemma LaterReportsExceed(stream: seq<Arrival>, i: nat, n: nat, u: Usage, b: Budget)
    requires i <= n <= |stream| && Within(Added(u, ReportsOf(stream, n)), b)
    ensures Within(Added(u, ReportsOf(stream, i)), b)
  {
    var more := ReportsGrow(stream, i, n);
    PrefixFits(u, ReportsOf(stream, n), ReportsOf(stream, i), more, b);
  }

  /** What hearing a stream from item `i` on comes to, when all before it was plain and fitted. */
  ghost predicate HeardRightly(stream: seq<Arrival>, i: nat, u: Usage, s: Settings)
    requires i <= |stream|
  {
    var heard, n := Hear(stream, i, HeardBy(stream, i), Added(u, ReportsOf(stream, i)), None, s), End(stream);
    && (heard.result.Ok? <==> Accepted(stream, u, s))
    && (heard.result.Ok? ==>
          && heard.result.value == Collected(CallsOf(stream, n), LastCompleted(stream, n).value)
          && heard.usage == Added(u, ReportsOf(stream, n)) && heard.signal == Fired(None, stream[n].fires))
  }

  predicate PlainSoFar(stream: seq<Arrival>, i: nat, u: Usage, s: Settings)
    requires i <= |stream|
  {
    (forall k | 0 <= k < i :: Plain(stream[k])) && Within(Added(u, ReportsOf(stream, i)), s.budget)
  }

  lemma AtTheEnd(stream: seq<Arrival>, i: nat, u: Usage, s: Settings)
    requires i <= |stream| && PlainSoFar(stream, i, u, s) && (i == |stream| || stream[i].item.Done?)
    ensures HeardRightly(stream, i, u, s)
  {
    hide Added, ReportsOf, CallsOf, Reports, LastCompleted, Within;
    if i < |stream| { EndIsHere(stream, i); }
  }

  lemma NotPlainIsRefused(stream: seq<Arrival>, i: nat, u: Usage, s: Settings)
    requires i < |stream| && PlainSoFar(stream, i, u, s) && !stream[i].item.Done? && !Plain(stream[i])
    ensures HeardRightly(stream, i, u, s)
  {
    assert i < End(stream) || End(stream) == |stream|;
  }

  lemma ExcessIsReported(stream: seq<Arrival>, i: nat, u: Usage, s: Settings)
    requires i < |stream| && Plain(stream[i]) && Within(Added(u, ReportsOf(stream, i)), s.budget)
    requires !Within(Added(u, ReportsOf(stream, i + 1)), s.budget)
    ensures IsReport(stream[i].item)
  {
    assert ReportsOf(stream, i) + [] == ReportsOf(stream, i);
  }

  lemma ExcessIsHeard(stream: seq<Arrival>, i: nat, h: Heard, u: Usage, s: Settings)
    requires i < |stream| && Plain(stream[i])
    requires Heed(stream[i].item.event, h, u, None, s).signal.Some?
    ensures Hear(stream, i, h, u, None, s).result.Err?
  {}

  /** A report that passes the budget fires the signal, and the stream is left before its next item. */
  lemma ExcessIsRefused(stream: seq<Arrival>, i: nat, u: Usage, s: Settings)
    requires i < |stream| && PlainSoFar(stream, i, u, s) && Plain(stream[i])
    requires !Within(Added(u, ReportsOf(stream, i + 1)), s.budget)
    ensures HeardRightly(stream, i, u, s)
  {
    hide Added, ReportsOf, CallsOf, LastCompleted, Reports, Hear, Heed, Within;
    var h, v := HeardBy(stream, i), Added(u, ReportsOf(stream, i));
    OneMoreHeard(stream, i, u, s);
    ExcessIsReported(stream, i, u, s);
    ExcessIsHeard(stream, i, h, v, s);
    if Accepted(stream, u, s) { LaterReportsExceed(stream, i + 1, End(stream), u, s.budget); }
  }

  lemma OneMorePlain(stream: seq<Arrival>, i: nat, u: Usage, s: Settings)
    requires i < |stream| && Plain(stream[i]) && Within(Added(u, ReportsOf(stream, i + 1)), s.budget)
    requires HeardRightly(stream, i + 1, u, s)
    ensures HeardRightly(stream, i, u, s)
  {
    OneMoreHeard(stream, i, u, s);
  }

  lemma {:induction false} HeardFrom(stream: seq<Arrival>, i: nat, u: Usage, s: Settings)
    requires i <= |stream| && PlainSoFar(stream, i, u, s)
    ensures HeardRightly(stream, i, u, s)
    decreases |stream| - i
  {
    if i == |stream| || stream[i].item.Done? {
      AtTheEnd(stream, i, u, s);
    } else if !Plain(stream[i]) {
      NotPlainIsRefused(stream, i, u, s);
    } else if Within(Added(u, ReportsOf(stream, i + 1)), s.budget) {
      HeardFrom(stream, i + 1, u, s);
      OneMorePlain(stream, i, u, s);
    } else {
      ExcessIsRefused(stream, i, u, s);
    }
  }

  /** A stream is accepted exactly when it is read in full within the budget. */
  lemma HeardIffInFull(stream: seq<Arrival>, u: Usage, s: Settings)
    requires Within(u, s.budget)
    ensures
      var heard, n := Hear(stream, 0, SILENCE, u, None, s), End(stream);
      && (heard.result.Ok? <==> Accepted(stream, u, s))
      && (heard.result.Ok? ==>
            && n < |stream| && LastCompleted(stream, n).Some?
            && heard.result.value == Collected(CallsOf(stream, n), LastCompleted(stream, n).value)
            && heard.usage == Added(u, ReportsOf(stream, n)) && heard.signal == Fired(None, stream[n].fires))
  {
    HeardFrom(stream, 0, u, s);
    assert HeardBy(stream, 0) == SILENCE;
  }

  /** The usage after `n` calls. */
  function Called(u: Usage, n: nat): Usage { u.(toolCalls := u.toolCalls + n) }

  lemma OneMoreCalled(u: Usage, n: nat)
    ensures PlusUsage(Called(u, n), ONE_CALL) == Called(u, n + 1)
  {}

  /** The first `n` calls were carried out, and they fitted. */
  predicate Quiet(tools: seq<ToolRun>, n: nat, u: Usage, s: Settings) {
    && n <= |tools| && (forall i | 0 <= i < n :: CarriedOut(tools[i], s))
    && Within(Called(u, n), s.budget)
  }

  lemma QuietBefore(tools: seq<ToolRun>, i: nat, n: nat, u: Usage, s: Settings)
    requires i <= n && Quiet(tools, n, u, s)
    ensures Quiet(tools, i, u, s)
  {
    assert u.toolCalls + i <= u.toolCalls + n;
  }

  lemma NotQuiet(tools: seq<ToolRun>, i: nat, n: nat, u: Usage, s: Settings)
    requires i < n && (i >= |tools| || !tools[i].validArguments)
    ensures !Quiet(tools, n, u, s)
  {}

  lemma QuietAfter(tools: seq<ToolRun>, i: nat, u: Usage, s: Settings)
    requires i < |tools|
    ensures Quiet(tools, i + 1, u, s)
      <==> Quiet(tools, i, u, s) && CarriedOut(tools[i], s) && Within(Called(u, i + 1), s.budget)
  {
    if Quiet(tools, i + 1, u, s) { QuietBefore(tools, i, i + 1, u, s); }
  }

  lemma OneCallAdds(u: Usage, name: string)
    ensures Added(u, [Requested(name), Executed(name)]) == PlusUsage(u, ONE_CALL)
  {
    var two := [Requested(name), Executed(name)];
    assert two[..1] == [Requested(name)] && two[..1][..0] == [];
    assert Added(u, two[..1]) == PlusUsage(Added(u, two[..1][..0]), ONE_CALL);
  }

  lemma {:induction false} CallsAdd(u: Usage, calls: seq<string>, n: nat)
    requires n <= |calls|
    ensures Added(u, ToolMarks(calls, n)) == Called(u, n)
  {
    if n > 0 {
      CallsAdd(u, calls, n - 1);
      AddedSplits(u, ToolMarks(calls, n - 1), [Requested(calls[n - 1]), Executed(calls[n - 1])]);
      OneCallAdds(Called(u, n - 1), calls[n - 1]);
    }
  }

  lemma TurnAdds(u: Usage, t: Turn)
    ensures Added(u, TurnMarks(t)) == Called(Added(u, ReportsOf(t.stream, End(t.stream))), |TurnCalls(t)|)
  {
    var reports, calls := ReportsOf(t.stream, End(t.stream)), TurnCalls(t);
    AddedSplits(u, [Started] + reports, ToolMarks(calls, |calls|));
    AddedSplits(u, [Started], reports);
    assert Added(u, [Started]) == u by { assert [Started][..0] == []; }
    CallsAdd(Added(u, reports), calls, |calls|);
  }

  /** What a turn reports and calls fits only if what its stream reports does. */
  lemma TurnNeedsStream(u: Usage, t: Turn, s: Settings)
    requires Within(Added(u, TurnMarks(t)), s.budget)
    ensures Within(Added(u, ReportsOf(t.stream, End(t.stream))), s.budget)
  {
    TurnAdds(u, t);
  }

  // ---- how many turns

  /** The turns that may start: the least whole number that the budget does not pass. */
  function TurnLimitOf(s: Settings): nat { if s.budget.maxTurns <= 0.0 then 0 else Ceiling(s.budget.maxTurns) }

  /** The loop's own test before turn number `n`. */
  predicate TurnsLeft(s: Settings, n: nat) { n as real < s.budget.maxTurns }

  lemma LimitIsLeast(s: Settings, n: nat)
    ensures TurnsLeft(s, n) <==> n < TurnLimitOf(s)
  {
    CeilingIsLeast(s.budget.maxTurns, n);
  }

  /** No more turns than the budget has are started, by any script, exactly when it has a whole number of them. */
  lemma LimitFitsIffWhole(b: Budget)
    requires b.maxTurns > 0.0
    ensures Ceiling(b.maxTurns) as real <= b.maxTurns <==> IsWhole(b.maxTurns)
  {
    CeilingFitsIffWhole(b.maxTurns);
  }

  lemma AskingGoesOn(t: Turn, u: Usage, s: Settings)
    requires AsksOn(t) && Within(u, s.budget) && s.budget.maxCostUsd >= 0.0
    ensures GoesOn(t, s) && Within(Added(u, TurnMarks(t)), s.budget)
  {
    EndIsHere(t.stream, 2);
    assert ReportsOf(t.stream, 1) == ReportsOf(t.stream, 0) + [Reported(NO_COST)];
    assert ReportsOf(t.stream, 2) == ReportsOf(t.stream, 1) + [];
    assert CallsOf(t.stream, 1) == CallsOf(t.stream, 0) + [] && CallsOf(t.stream, 2) == CallsOf(t.stream, 1) + [];
    assert Reports(t.stream, 1) && Reports(t.stream, 2);
    TurnAdds(u, t);
    FreeReportFits(u, s.budget);
    assert [Reported(NO_COST)][..0] == [];
    assert Added(u, [Reported(NO_COST)]) == PlusUsage(u, NO_COST);
  }

  lemma NothingDone(acts: seq<Act>)
    requires acts == []
    ensures Total(acts) == UNREPORTED && TurnsStarted(acts) == 0 && Marks(acts) == []
  {}

  lemma {:induction false} TotalIsAdded(acts: seq<Act>)
    ensures Total(acts) == Added(UNREPORTED, Marks(acts))
  {
    if acts != [] {
      var before, last := acts[..|acts| - 1], acts[|acts| - 1];
      TotalIsAdded(before);
      assert Marks(acts)[..|Marks(acts)| - 1] == Marks(before);
    }
  }

  predicate TurnFits(t: Turn, u: Usage, s: Settings) { Within(Added(u, TurnMarks(t)), s.budget) }

  predicate RunFits(script: seq<Turn>, n: nat, s: Settings)
    requires n <= |script|
  {
    Within(Added(UNREPORTED, RunMarks(script, n)), s.budget)
  }

  lemma RunFitsBefore(script: seq<Turn>, k: nat, s: Settings)
    requires k < |script| && RunFits(script, k + 1, s)
    ensures RunFits(script, k, s)
  {
    RunMarksNext(script, k);
    PrefixFits(UNREPORTED, RunMarks(script, k + 1), RunMarks(script, k), TurnMarks(script[k]), s.budget);
  }

  predicate TurnEnds(t: Turn, u: Usage, s: Settings) { Finishes(t, s) && TurnFits(t, u, s) }

  predicate TurnGoesOn(t: Turn, u: Usage, s: Settings) { GoesOn(t, s) && TurnFits(t, u, s) }

  lemma RefusedTurn(t: Turn, u: Usage, s: Settings)
    requires !t.contextFits || !Accepted(t.stream, u, s)
    ensures !TurnEnds(t, u, s) && !TurnGoesOn(t, u, s)
  {
    if TurnFits(t, u, s) { TurnNeedsStream(u, t, s); }
  }

  /** What becomes of a turn whose stream was accepted, in terms of the calls that follow. */
  lemma AcceptedTurn(t: Turn, u: Usage, s: Settings)
    requires t.contextFits && Accepted(t.stream, u, s)
    ensures
      var v, calls, n := Added(u, ReportsOf(t.stream, End(t.stream))), TurnCalls(t), End(t.stream);
      var done := calls == [] && LastCompleted(t.stream, n) == Some(false);
      && n < |t.stream| && (TurnEnds(t, u, s) <==> done)
      && (TurnGoesOn(t, u, s) <==> !done && t.stream[n].fires.None? && Quiet(t.tools, |calls|, v, s))
  {
    var v, calls := Added(u, ReportsOf(t.stream, End(t.stream))), TurnCalls(t);
    TurnAdds(u, t);
    assert calls == [] ==> Called(v, |calls|) == v;
    assert Quiet(t.tools, |calls|, v, s) <==> AllCarriedOut(calls, t.tools, s) && Within(Called(v, |calls|), s.budget);
  }

  /** What a script holds, turn by turn: which turns go on, which finish, and whether all fits by then. */
  datatype Chart = Chart(goes: seq<bool>, ends: seq<bool>, fits: seq<bool>)

  ghost predicate IsChart(c: Chart, script: seq<Turn>, s: Settings) {
    && |c.goes| == |c.ends| == |script| && |c.fits| == |script| + 1
    && (forall k {:trigger GoesOn(script[k], s)} | 0 <= k < |script| :: c.goes[k] == GoesOn(script[k], s))
    && (forall k {:trigger Finishes(script[k], s)} | 0 <= k < |script| :: c.ends[k] == Finishes(script[k], s))
    && (forall k: nat {:trigger RunFits(script, k, s)} | k <= |script| :: c.fits[k] == RunFits(script, k, s))
    && (forall k | 0 <= k < |script| :: c.fits[k + 1] ==> c.fits[k])
  }

  lemma ChartOf(script: seq<Turn>, s: Settings) returns (c: Chart)
    ensures IsChart(c, script, s)
  {
    hide GoesOn, Finishes, RunFits;
    c := Chart(seq(|script|, k requires 0 <= k < |script| => GoesOn(script[k], s)),
               seq(|script|, k requires 0 <= k < |script| => Finishes(script[k], s)),
               seq(|script| + 1, k requires 0 <= k <= |script| => RunFits(script, k, s)));
    forall k | 0 <= k < |script| ensures c.fits[k + 1] ==> c.fits[k] {
      if RunFits(script, k + 1, s) { RunFitsBefore(script, k, s); }
    }
  }

  /** The first `n` turns went on without the signal firing. */
  predicate WentOn(c: Chart, n: nat) { n <= |c.goes| && n < |c.fits| && c.fits[n] && forall k | 0 <= k < n :: c.goes[k] }

  /** Turn `k` is reached, and finishes the run. */
  predicate Final(c: Chart, k: nat) {
    k < |c.ends| && k + 1 < |c.fits| && WentOn(c, k) && c.ends[k] && c.fits[k + 1]
  }

  lemma {:induction false} FitsEarlier(c: Chart, script: seq<Turn>, k: nat, n: nat, s: Settings)
    requires IsChart(c, script, s) && k <= n <= |script| && c.fits[n]
    ensures c.fits[k]
    decreases n
  {
    if k < n { FitsEarlier(c, script, k, n - 1, s); }
  }

  lemma GoesOnChart(c: Chart, script: seq<Turn>, n: nat, s: Settings)
    requires IsChart(c, script, s) && n <= |script|
    ensures (forall k | 0 <= k < n :: GoesOn(script[k], s)) <==> forall k | 0 <= k < n :: c.goes[k]
  {
    forall k | 0 <= k < n ensures c.goes[k] == GoesOn(script[k], s) {}
  }

  lemma EndIsFinal(c: Chart, script: seq<Turn>, n: nat, s: Settings)
    requires IsChart(c, script, s)
    ensures EndsWith(script, n, s) <==> 0 < n <= |script| && n <= TurnLimitOf(s) && Final(c, n - 1)
  {
    if 0 < n <= |script| {
      assert c.ends[n - 1] == Finishes(script[n - 1], s);
      assert c.fits[n] == RunFits(script, n, s);
      if c.fits[n] { FitsEarlier(c, script, n - 1, n, s); }
      GoesOnChart(c, script, n - 1, s);
    }
  }

  lemma TurnFitsOnChart(c: Chart, script: seq<Turn>, k: nat, u: Usage, s: Settings)
    requires IsChart(c, script, s) && k < |script| && u == Added(UNREPORTED, RunMarks(script, k))
    ensures TurnFits(script[k], u, s) == c.fits[k + 1]
  {
    hide GoesOn, Finishes;
    RunMarksNext(script, k);
    AddedSplits(UNREPORTED, RunMarks(script, k), TurnMarks(script[k]));
    assert c.fits[k + 1] == RunFits(script, k + 1, s);
  }

  lemma TurnOnChart(c: Chart, script: seq<Turn>, k: nat, u: Usage, s: Settings)
    requires IsChart(c, script, s) && k < |script| && u == Added(UNREPORTED, RunMarks(script, k))
    ensures Final(c, k) <==> WentOn(c, k) && TurnEnds(script[k], u, s)
    ensures WentOn(c, k + 1) <==> WentOn(c, k) && TurnGoesOn(script[k], u, s)
  {
    hide GoesOn, Finishes, TurnFits, Added, RunMarks, RunFits;
    TurnFitsOnChart(c, script, k, u, s);
  }

  /** No turn ends the run. */
  ghost predicate NoEnd(script: seq<Turn>, s: Settings) { forall n: nat :: !EndsWith(script, n, s) }

  /** A turn that neither goes on nor finishes the run keeps it from ever ending well. */
  lemma NoLaterFinal(c: Chart, script: seq<Turn>, k: nat, n: nat, s: Settings)
    requires IsChart(c, script, s) && k <= n && !WentOn(c, k + 1) && !Final(c, k)
    ensures !Final(c, n)
  {
    if k < n && Final(c, n) { FitsEarlier(c, script, k + 1, n, s); }
  }

  /** No turn before number `n` finishes the run. */
  ghost predicate NoneFinal(c: Chart, n: nat) { forall k: nat | k < n :: !Final(c, k) }

  /** After `n` turns none has finished the run, and none will: there is no other, or it does not come to it. */
  ghost predicate InVain(c: Chart, n: nat, limit: nat) {
    NoneFinal(c, n) && (n >= |c.goes| || n >= limit || (!WentOn(c, n + 1) && !Final(c, n)))
  }

  /** What follows from how turn `k` goes. */
  lemma NextIsFinal(c: Chart, script: seq<Turn>, k: nat, limit: nat, s: Settings)
    requires IsChart(c, script, s) && k < |script|
    ensures NoneFinal(c, k) && !Final(c, k) ==> NoneFinal(c, k + 1)
    ensures NoneFinal(c, k) && !Final(c, k) && !WentOn(c, k + 1) ==> InVain(c, k, limit)
    ensures OnAndOn(c) ==> WentOn(c, k) && WentOn(c, k + 1) && !Final(c, k)
  {
    hide WentOn, Final;
  }

  lemma NothingYet(c: Chart, script: seq<Turn>, s: Settings)
    requires IsChart(c, script, s)
    ensures WentOn(c, 0) <==> Within(UNREPORTED, s.budget)
  {
    assert c.fits[0] == RunFits(script, 0, s);
  }

  lemma BeforeAnyTurn(script: seq<Turn>, c: Chart)
    ensures RunMarks(script, 0) == [] && NoneFinal(c, 0)
  {}

  lemma OutOfTurns(c: Chart, script: seq<Turn>, n: nat, s: Settings)
    requires IsChart(c, script, s) && NoneFinal(c, n) && (n >= |script| || n >= TurnLimitOf(s))
    ensures InVain(c, n, TurnLimitOf(s))
  {}

  lemma NoEndIs(c: Chart, script: seq<Turn>, n: nat, s: Settings)
    requires IsChart(c, script, s) && InVain(c, n, TurnLimitOf(s))
    ensures NoEnd(script, s)
  {
    forall m: nat ensures !EndsWith(script, m, s) {
      EndIsFinal(c, script, m, s);
      if 0 < m <= |script| && m <= TurnLimitOf(s) && n < m { NoLaterFinal(c, script, n, m - 1, s); }
    }
  }

  /** What the chart says about a run says the script. */
  lemma ChartTells(c: Chart, script: seq<Turn>, n: nat, k: nat, unfired: bool, r: Result<(), Failure>, s: Settings)
    requires IsChart(c, script, s)
    requires r.Ok? ==> unfired && 0 < n <= |script| && n <= TurnLimitOf(s) && Final(c, n - 1)
    requires r.Err? && unfired ==> InVain(c, k, TurnLimitOf(s))
    ensures r.Ok? ==> EndsWith(script, n, s)
    ensures r.Err? && unfired ==> NoEnd(script, s)
  {
    if r.Ok? {
      EndIsFinal(c, script, n, s);
    } else if unfired {
      NoEndIs(c, script, k, s);
    }
  }

  const SAYS := Arrival(None, Next(TextDelta))
  const ASKS_NOTHING := Arrival(None, Next(Completed(false)))

  /** A turn that says something, reports no cost and asks for nothing ends the run; without its `Completed` it ends none. */
  lemma QuietTurnEnds(script: seq<Turn>, s: Settings)
    requires s.budget.maxTurns > 0.0 && s.budget.maxCostUsd >= 0.0 && Within(UNREPORTED, s.budget)
    ensures script == [Turn(true, [SAYS, FREE_REPORT, ASKS_NOTHING, STREAM_ENDS], [])] ==> EndsWith(script, 1, s)
    ensures script == [Turn(true, [SAYS, FREE_REPORT, STREAM_ENDS], [])] ==> NoEnd(script, s)
  {
    if script == [Turn(true, [SAYS, FREE_REPORT, ASKS_NOTHING, STREAM_ENDS], [])] {
      QuietTurnFinishes(script[0], UNREPORTED, s);
      LimitIsLeast(s, 0);
      assert RunMarks(script, 1) == RunMarks(script, 0) + TurnMarks(script[0]) == TurnMarks(script[0]);
    }
    if script == [Turn(true, [SAYS, FREE_REPORT, STREAM_ENDS], [])] {
      EndIsHere(script[0].stream, 2);
      assert LastCompleted(script[0].stream, 2) == LastCompleted(script[0].stream, 1) == LastCompleted(script[0].stream, 0);
    }
  }

  lemma QuietStream(stream: seq<Arrival>)
    requires stream == [SAYS, FREE_REPORT, ASKS_NOTHING, STREAM_ENDS]
    ensures End(stream) == 3 && CallsOf(stream, 3) == [] && ReportsOf(stream, 3) == [Reported(NO_COST)]
    ensures LastCompleted(stream, 3) == Some(false) && Reports(stream, 3)
  {
    hide End, EndFrom;
    EndIsHere(stream, 3);
    var one := [Reported(NO_COST)];
    assert ReportsOf(stream, 1) == ReportsOf(stream, 0) + [] == [];
    assert ReportsOf(stream, 2) == ReportsOf(stream, 1) + one == one;
    assert ReportsOf(stream, 3) == ReportsOf(stream, 2) + [] == one;
    assert CallsOf(stream, 1) == CallsOf(stream, 0) + [] && CallsOf(stream, 2) == CallsOf(stream, 1) + [];
    assert CallsOf(stream, 3) == CallsOf(stream, 2) + [];
    assert Reports(stream, 2);
  }

  lemma QuietTurnFinishes(t: Turn, u: Usage, s: Settings)
    requires t == Turn(true, [SAYS, FREE_REPORT, ASKS_NOTHING, STREAM_ENDS], [])
    requires s.budget.maxCostUsd >= 0.0 && Within(u, s.budget)
    ensures Finishes(t, s) && Within(Added(u, TurnMarks(t)), s.budget)
  {
    hide End, EndFrom, CallsOf, ReportsOf, LastCompleted, Reports, TurnMarks;
    QuietStream(t.stream);
    TurnAdds(u, t);
    FreeReportFits(u, s.budget);
    var one := [Reported(NO_COST)];
    assert one[..0] == [] && Added(u, one) == PlusUsage(u, NO_COST);
  }

  predicate AlwaysAsksOn(script: seq<Turn>) { forall t | t in script :: AsksOn(t) }

  lemma AskingFits(script: seq<Turn>, k: nat, s: Settings)
    requires k < |script| && AsksOn(script[k]) && s.budget.maxCostUsd >= 0.0 && RunFits(script, k, s)
    ensures GoesOn(script[k], s) && RunFits(script, k + 1, s)
  {
    var u := Added(UNREPORTED, RunMarks(script, k));
    AskingGoesOn(script[k], u, s);
    RunMarksNext(script, k);
    AddedSplits(UNREPORTED, RunMarks(script, k), TurnMarks(script[k]));
  }

  lemma NothingFits(script: seq<Turn>, s: Settings)
    ensures RunFits(script, 0, s) <==> Within(UNREPORTED, s.budget)
  {}

  lemma {:induction false} AskingWentOn(c: Chart, script: seq<Turn>, k: nat, s: Settings)
    requires IsChart(c, script, s) && k <= |script| && Within(UNREPORTED, s.budget)
    requires AlwaysAsksOn(script) && s.budget.maxCostUsd >= 0.0
    ensures WentOn(c, k)
  {
    hide GoesOn, Finishes, RunFits, AsksOn;
    if k == 0 {
      NothingFits(script, s);
      assert c.fits[0] == RunFits(script, 0, s);
    } else {
      AskingWentOn(c, script, k - 1, s);
      assert c.fits[k - 1] == RunFits(script, k - 1, s) && c.fits[k] == RunFits(script, k, s);
      AskingFits(script, k - 1, s);
    }
  }

  predicate OnAndOn(c: Chart) { forall n: nat | n <= |c.goes| :: WentOn(c, n) && !Final(c, n) }

  lemma AskingGoesOnAndOn(c: Chart, script: seq<Turn>, s: Settings)
    requires IsChart(c, script, s) && Within(UNREPORTED, s.budget)
    requires AlwaysAsksOn(script) && s.budget.maxCostUsd >= 0.0
    ensures OnAndOn(c)
  {
    forall n: nat | n <= |c.goes| ensures WentOn(c, n) && !Final(c, n) {
      AskingWentOn(c, script, n, s);
      if n < |script| {
        assert c.fits[n] == RunFits(script, n, s);
        AskingFits(script, n, s);
        assert c.ends[n] == Finishes(script[n], s);
      }
    }
  }

  lemma NothingFollows(before: seq<Act>, calls: seq<string>, tools: seq<ToolRun>, u: Usage, fired: bool, s: Settings)
    ensures before + ToolTrace(calls, tools, |calls|, u, fired, s) == before
  {}

  lemma NothingMore(
    before: seq<Act>, calls: seq<string>, tools: seq<ToolRun>, i: nat, u: Usage, fired: bool, s: Settings)
    requires i < |calls| && (i >= |tools| || !tools[i].validArguments)
    ensures before + ToolTrace(calls, tools, i, u, fired, s) == before
  {}

  lemma BeforeAnyCall(before: seq<Mark>, calls: seq<string>, tools: seq<ToolRun>, u: Usage, s: Settings)
    ensures Called(u, 0) == u && (Quiet(tools, 0, u, s) <==> Within(u, s.budget))
    ensures before + ToolMarks(calls, 0) == before
  {}

  lemma MoreMarks(before: seq<Mark>, calls: seq<string>, i: nat)
    requires i < |calls|
    ensures (before + ToolMarks(calls, i)) + [Requested(calls[i]), Executed(calls[i])] == before + ToolMarks(calls, i + 1)
  {
    Regroup(before, ToolMarks(calls, i), [Requested(calls[i]), Executed(calls[i])]);
  }

  class AgentExecution {
    const settings: Settings
    var usage: Usage
    var signal: Option<Reason>
    var started: nat
    ghost var acts: seq<Act>
    ghost var marks: seq<Mark>

    /** Recorded usage is the sum of what was reported, and the signal has fired once it exceeds the budget. */
    ghost predicate Valid()
      reads this
    {
      && usage == Total(acts) && started == TurnsStarted(acts) && marks == Marks(acts)
      && (!Within(usage, settings.budget) ==> signal.Some?)
      && (signal == Some(OverBudget) ==> !Within(usage, settings.budget))
      && IsTrace(acts, settings.budget)
    }

    constructor (settings: Settings)
      requires settings.budget.maxToolCalls >= 0.0
      ensures Valid() && this.settings == settings && acts == [] && signal.None?
    {
      this.settings := settings;
      usage, signal, started, acts, marks := UNREPORTED, None, 0, [], [];
    }

    /** `AbortController.abort`: the first reason stays. */
    method Abort(reason: Option<Outside>)
      requires Valid()
      modifies this`signal
      ensures Valid() && signal == if old(signal).Some? then old(signal) else reason
    {
      if signal.None? { signal := reason; }
    }

    /** `#appendAgentEvent`: the store adds the usage up, then `#enforceBudget` looks at the sum. */
    method Record(a: Act)
      requires Valid() && (a.Report? || a.Request?)
      modifies this
      ensures Valid() && acts == old(acts) + [a] && usage == PlusUsage(old(usage), DeltaOf(a))
      ensures marks == old(marks) + [MarkOf(a)] && started == old(started)
      ensures signal == if old(signal).None? && !Within(usage, settings.budget) then Some(OverBudget) else old(signal)
    {
      Appended(acts, a);
      acts, marks := acts + [a], marks + [MarkOf(a)];
      usage := PlusUsage(usage, DeltaOf(a));
      if !Within(usage, settings.budget) && signal.None? { signal := Some(OverBudget); }
    }

    method Note(a: Act)
      requires Valid() && (a.StartTurn? || a.Execute?) && a.usage == usage
      requires a.StartTurn? ==> a.turn == started && signal.None?
      requires a.Execute? ==> |acts| > 0 && acts[|acts| - 1] == Request(a.name)
      modifies this`acts, this`marks, this`started
      ensures Valid() && acts == old(acts) + [a]
      ensures marks == old(marks) + [MarkOf(a)]
      ensures started == old(started) + if a.StartTurn? then 1 else 0
    {
      Appended(acts, a);
      acts, marks := acts + [a], marks + [MarkOf(a)];
      if a.StartTurn? { started := started + 1; }
    }

    /** One event of the stream. */
    method Take(event: ModelEvent, sofar: Heard) returns (r: Result<Heard, Failure>)
      requires Valid()
      modifies this
      ensures Valid() && old(acts) <= acts && started == old(started)
      ensures r.Ok? ==> marks == old(marks) + EventReports(Next(event))
      ensures r.Ok? ==> r.value.calls == sofar.calls + EventCalls(Next(event))
      ensures Hearing(r, usage, signal) == Heed(event, sofar, old(usage), old(signal), settings)
      ensures r != Err(TurnLimit)
    {
      match event
      case TextDelta => return Ok(sofar);
      case ToolCall(name) => return Ok(sofar.(calls := sofar.calls + [name]));
      case Completed(wantsTools) => return Ok(sofar.(finish := Some(wantsTools)));
      case UsageReport(delta, unusableCost) =>
        if delta.costUsd.None? && !unusableCost { return Err(PriceUnknown); }
        Record(Report(delta));
        return Ok(sofar.(sawUsage := true));
    }

    /** One item of the stream that is an event, after the signal has had its chance to fire. */
    method TakeNext(stream: seq<Arrival>, i: nat, sofar: Heard) returns (r: Result<Heard, Failure>)
      requires Valid() && i < |stream| && stream[i].item.Next? && signal.None?
      modifies this
      ensures Valid() && old(acts) <= acts && started == old(started)
      ensures r.Ok? ==> marks == old(marks) + EventReports(stream[i].item)
      ensures r.Ok? ==> r.value.calls == sofar.calls + EventCalls(stream[i].item)
      ensures Hear(stream, i, sofar, old(usage), old(signal), settings)
        == if r.Ok? then Hear(stream, i + 1, r.value, usage, signal, settings) else Hearing(Err(r.error), usage, signal)
      ensures r != Err(TurnLimit)
    {
      Abort(stream[i].fires);
      r := Take(stream[i].item.event, sofar);
    }

    /** What ends the stream at item `i`, when it is no event. */
    method Conclude(stream: seq<Arrival>, i: nat, sofar: Heard) returns (r: Result<Collected, Failure>)
      requires Valid() && i < |stream| && !stream[i].item.Next? && signal.None?
      modifies this`signal
      ensures Valid()
      ensures Hearing(r, usage, signal) == Hear(stream, i, sofar, usage, old(signal), settings)
      ensures r.Ok? ==> stream[i].item.Done? && r.value.calls == sofar.calls
      ensures r != Err(TurnLimit)
    {
      Abort(stream[i].fires);
      match stream[i].item
      case Lost => return Err(if signal.Some? then Aborted(signal.value) else StreamIdle);
      case Broken => return Err(StreamFailed);
      case Done =>
        if sofar.finish.None? { return Err(StreamTruncated); }
        if settings.requireUsage && !sofar.sawUsage && !settings.allowUnmetered { return Err(UsageMissing); }
        return Ok(Collected(sofar.calls, sofar.finish.value));
    }

    /** The inner loop over one turn's stream. */
    method Collect(stream: seq<Arrival>) returns (r: Result<Collected, Failure>)
      requires Valid()
      modifies this
      ensures Valid() && old(acts) <= acts && started == old(started)
      ensures r.Ok? ==> Within(usage, settings.budget)
      ensures r.Ok? ==> marks == old(marks) + ReportsOf(stream, End(stream))
      ensures r.Ok? ==> r.value.calls == CallsOf(stream, End(stream))
      ensures Hearing(r, usage, signal) == Hear(stream, 0, SILENCE, old(usage), old(signal), settings)
      ensures r != Err(TurnLimit)
    {
      hide IsTrace, Total, Marks, TurnsStarted, Within;
      var heard := SILENCE;
      var i := 0;
      ghost var whole := Hear(stream, 0, SILENCE, usage, signal, settings);
      while true
        invariant 0 <= i <= |stream| && forall k | 0 <= k < i :: stream[k].item.Next?
        invariant marks == old(marks) + ReportsOf(stream, i) && heard.calls == CallsOf(stream, i)
        invariant Hear(stream, i, heard, usage, signal, settings) == whole
        invariant Valid() && old(acts) <= acts && started == old(started)
        decreases |stream| - i
      {
        if signal.Some? { return Err(Aborted(signal.value)); }
        if i == |stream| { return Err(StreamFailed); }
        if !stream[i].item.Next? {
          if stream[i].item.Done? { EndIsHere(stream, i); }
          r := Conclude(stream, i, heard);
          return;
        }
        Regroup(old(marks), ReportsOf(stream, i), EventReports(stream[i].item));
        var taken := TakeNext(stream, i, heard);
        if taken.Err? { return Err(taken.error); }
        heard := taken.value;
        i := i + 1;
      }
    }

    /** A tool call up to its execution: requested and counted, then authorized. Only an approval looks at the signal. */
    method Admit(name: string, tool: ToolRun) returns (r: Result<(), Failure>)
      requires Valid() && tool.validArguments
      modifies this
      ensures Valid() && started == old(started) && usage == PlusUsage(old(usage), ONE_CALL)
      ensures acts == old(acts) + [Request(name)]
      ensures
        var firedNow := old(signal).Some? || !Within(usage, settings.budget);
        && (r.Ok? <==> Starts(tool, firedNow, settings))
        && (r.Ok? ==> signal.Some? == (firedNow || tool.firesBefore.Some?))
      ensures r != Err(TurnLimit)
    {
      Record(Request(name));
      if tool.needsApproval && signal.Some? { return Err(NotAuthorized); }
      Abort(tool.firesBefore);
      if !tool.authorized { return Err(NotAuthorized); }
      if !TimeoutFits(settings) { return Err(BadTimeout); }
      r := Ok(());
    }

    /** The execution of the call that was requested last. */
    method Perform(name: string, tool: ToolRun) returns (r: Result<(), Failure>)
      requires Valid() && |acts| > 0 && acts[|acts| - 1] == Request(name)
      modifies this`acts, this`marks, this`started, this`signal
      ensures Valid() && started == old(started) && acts == old(acts) + [Execute(name, usage)]
      ensures signal.Some? == (old(signal).Some? || tool.firesDuring.Some?)
      ensures (r.Ok? <==> Ends(tool)) && r != Err(TurnLimit)
    {
      Note(Execute(name, usage));
      Abort(tool.firesDuring);
      if !tool.completes { return Err(ToolFailed); }
      if !tool.validArtifact { return Err(BadArtifact); }
      r := Ok(());
    }

    /** One tool call. */
    method RunTool(name: string, tool: ToolRun) returns (r: Result<(), Failure>)
      requires Valid() && tool.validArguments
      modifies this
      ensures Valid() && started == old(started)
      ensures
        var v := PlusUsage(old(usage), ONE_CALL);
        var firedNow := old(signal).Some? || !Within(v, settings.budget);
        && usage == v
        && (r.Ok? <==> Starts(tool, firedNow, settings) && Ends(tool))
        && (r.Ok? ==> signal.Some? == (firedNow || Fires(tool)))
        && acts == old(acts) + [Request(name)] + if Starts(tool, firedNow, settings) then [Execute(name, v)] else []
      ensures r != Err(TurnLimit)
    {
      r := Admit(name, tool);
      if r.Err? { return; }
      r := Perform(name, tool);
    }

    /** Call number `i`: what it leaves, and the rest after it if it ends well, is the trace from it on. */
    method RunCall(calls: seq<string>, tools: seq<ToolRun>, i: nat) returns (r: Result<(), Failure>)
      requires Valid() && i < |calls| && i < |tools| && tools[i].validArguments
      modifies this
      ensures Valid() && started == old(started)
      ensures old(acts) + ToolTrace(calls, tools, i, old(usage), old(signal).Some?, settings)
        == if r.Ok? then acts + ToolTrace(calls, tools, i + 1, usage, signal.Some?, settings) else acts
      ensures r.Ok? ==> marks == old(marks) + [Requested(calls[i]), Executed(calls[i])]
      ensures usage == PlusUsage(old(usage), ONE_CALL)
      ensures r.Ok? && signal.None? <==>
        old(signal).None? && CarriedOut(tools[i], settings) && Within(usage, settings.budget)
      ensures r != Err(TurnLimit)
    {
      TraceSplits(acts, calls, tools, i, usage, signal.Some?, settings);
      CallMarked(acts, calls[i], PlusUsage(usage, ONE_CALL));
      r := RunTool(calls[i], tools[i]);
    }

    /** The next call of a turn that began with usage `u`; `unfired` says whether the signal had not fired by then. */
    method RunNextCall(calls: seq<string>, tools: seq<ToolRun>, i: nat, ghost u: Usage, ghost unfired: bool)
      returns (r: Result<(), Failure>)
      requires Valid() && i < |calls|
      requires usage == Called(u, i) && (signal.None? <==> unfired && Quiet(tools, i, u, settings))
      modifies this
      ensures Valid() && started == old(started)
      ensures old(acts) + ToolTrace(calls, tools, i, old(usage), old(signal).Some?, settings)
        == if r.Ok? then acts + ToolTrace(calls, tools, i + 1, usage, signal.Some?, settings) else acts
      ensures r.Ok? ==> marks == old(marks) + [Requested(calls[i]), Executed(calls[i])]
      ensures r.Ok? ==> usage == Called(u, i + 1) && (signal.None? <==> unfired && Quiet(tools, i + 1, u, settings))
      ensures r.Err? && unfired ==> !Quiet(tools, |calls|, u, settings)
      ensures r != Err(TurnLimit)
    {
      hide IsTrace, Total, Marks, TurnsStarted, Called, Quiet, ToolTrace;
      if i >= |tools| || !tools[i].validArguments {
        NothingMore(acts, calls, tools, i, usage, signal.Some?, settings);
        NotQuiet(tools, i, |calls|, u, settings);
        return Err(BadArguments);
      }
      OneMoreCalled(u, i);
      QuietAfter(tools, i, u, settings);
      r := RunCall(calls, tools, i);
      if r.Err? && Quiet(tools, |calls|, u, settings) { QuietBefore(tools, i + 1, |calls|, u, settings); }
    }

    /** The calls of one turn, in order. However they end, they leave exactly their trace. */
    method RunTools(calls: seq<string>, tools: seq<ToolRun>) returns (r: Result<(), Failure>)
      requires Valid()
      modifies this
      ensures Valid() && started == old(started)
      ensures acts == old(acts) + ToolTrace(calls, tools, 0, old(usage), old(signal).Some?, settings)
      ensures old(acts) <= acts && (calls == [] ==> r.Ok? && usage == old(usage) && signal == old(signal))
      ensures r.Ok? ==> marks == old(marks) + ToolMarks(calls, |calls|)
      ensures r.Ok? && signal.None? <==> old(signal).None? && Quiet(tools, |calls|, old(usage), settings)
      ensures r != Err(TurnLimit)
    {
      hide ToolTrace, ToolMarks, Quiet, Called, IsTrace, Total, Marks, TurnsStarted, Within;
      ghost var whole := old(acts) + ToolTrace(calls, tools, 0, usage, signal.Some?, settings);
      BeforeAnyCall(marks, calls, tools, usage, settings);
      for i := 0 to |calls|
        invariant Valid() && started == old(started)
        invariant calls == [] ==> usage == old(usage) && signal == old(signal)
        invariant acts + ToolTrace(calls, tools, i, usage, signal.Some?, settings) == whole
        invariant marks == old(marks) + ToolMarks(calls, i) && usage == Called(old(usage), i)
        invariant signal.None? <==> old(signal).None? && Quiet(tools, i, old(usage), settings)
      {
        MoreMarks(old(marks), calls, i);
        r := RunNextCall(calls, tools, i, old(usage), old(signal).None?);
        if r.Err? { return; }
      }
      NothingFollows(acts, calls, tools, usage, signal.Some?, settings);
      r := Ok(());
    }

    /** One pass of the turn loop; `Ok(true)` when it ends the run. */
    method OneTurn(turn: nat, t: Turn) returns (r: Result<bool, Failure>)
      requires Valid() && started == turn
      modifies this
      ensures Valid() && turn <= started <= turn + 1
      ensures r.Ok? ==> started == turn + 1 && marks == old(marks) + TurnMarks(t) && old(signal).None?
      ensures r == Ok(true) <==> old(signal).None? && TurnEnds(t, old(usage), settings)
      ensures r == Ok(false) && signal.None? <==> old(signal).None? && TurnGoesOn(t, old(usage), settings)
      ensures r == Ok(true) ==> Within(usage, settings.budget)
      ensures r != Err(TurnLimit)
    {
      hide TurnEnds, TurnGoesOn, TurnMarks, Accepted, Quiet, IsTrace, Hear, Total, Marks, TurnsStarted, ReportsOf, CallsOf, End,
           LastCompleted, ToolMarks, ToolTrace, Added, Within;
      if signal.Some? { return Err(Aborted(signal.value)); }
      if !t.contextFits {
        RefusedTurn(t, usage, settings);
        return Err(ContextTooLarge);
      }
      TurnRegroups(marks, t);
      HeardIffInFull(t.stream, usage, settings);
      if Accepted(t.stream, usage, settings) {
        AcceptedTurn(t, usage, settings);
      } else {
        RefusedTurn(t, usage, settings);
      }
      Note(StartTurn(turn, usage));
      assert signal == None;
      var collected := Collect(t.stream);
      if collected.Err? { return Err(collected.error); }
      var calls := collected.value.calls;
      var done := RunTools(calls, t.tools);
      if done.Err? { return Err(done.error); }
      r := Ok(calls == [] && !collected.value.wantsTools);
    }

    /** The next turn of a script whose earlier turns all went through; `unfired` is about the run's beginning. */
    method NextTurn(script: seq<Turn>, ghost c: Chart, ghost unfired: bool) returns (r: Result<bool, Failure>)
      requires Valid() && started < |script| && marks == RunMarks(script, started) && IsChart(c, script, settings)
      requires signal.None? <==> unfired && WentOn(c, started)
      modifies this
      ensures Valid() && old(started) <= started <= old(started) + 1
      ensures r.Ok? ==> started == old(started) + 1 && marks == RunMarks(script, started)
      ensures r == Ok(true) <==> unfired && Final(c, old(started))
      ensures r == Ok(false) && signal.None? <==> unfired && WentOn(c, old(started) + 1)
      ensures r == Ok(true) ==> Within(usage, settings.budget)
      ensures r != Err(TurnLimit)
    {
      hide TurnEnds, TurnGoesOn, IsChart, WentOn, Final, IsTrace, Total, Marks, TurnsStarted, RunMarks, TurnMarks, Added,
           Within;
      RunMarksNext(script, started);
      TotalIsAdded(acts);
      TurnOnChart(c, script, started, usage, settings);
      r := OneTurn(started, script[started]);
    }

    /** One pass of the loop over the turns: it goes on, it ends the run, or it shows that nothing will. */
    method Pass(script: seq<Turn>, ghost c: Chart, ghost unfired: bool) returns (r: Result<bool, Failure>)
      requires Valid() && started < |script| && marks == RunMarks(script, started) && IsChart(c, script, settings)
      requires (signal.None? <==> unfired && WentOn(c, started)) && (unfired ==> NoneFinal(c, started))
      modifies this
      ensures Valid() && old(started) <= started <= old(started) + 1
      ensures r.Ok? ==> started == old(started) + 1 && marks == RunMarks(script, started)
      ensures r == Ok(true) ==> unfired && Final(c, started - 1) && Within(usage, settings.budget)
      ensures r == Ok(false) ==> (signal.None? <==> unfired && WentOn(c, started)) && (unfired ==> NoneFinal(c, started))
      ensures r.Err? && unfired ==> InVain(c, old(started), TurnLimitOf(settings))
      ensures unfired && OnAndOn(c) ==> r == Ok(false)
      ensures r != Err(TurnLimit)
    {
      hide IsChart, WentOn, Final, NoneFinal, InVain, OnAndOn, IsTrace, Total, Marks, TurnsStarted, RunMarks, Within;
      NextIsFinal(c, script, started, TurnLimitOf(settings), settings);
      r := NextTurn(script, c, unfired);
    }

    /** The loop over the turns. */
    method Turns(script: seq<Turn>, ghost c: Chart) returns (r: Result<(), Failure>, ghost n: nat)
      requires Valid() && started == 0 && marks == [] && IsChart(c, script, settings) && (signal.None? ==> WentOn(c, 0))
      modifies this
      ensures Valid() && started <= TurnLimitOf(settings) && started <= |script|
      ensures r.Ok? ==> old(signal).None? && 0 < started && Final(c, started - 1)
      ensures r.Ok? ==> Within(usage, settings.budget) && marks == RunMarks(script, started)
      ensures r.Err? && old(signal).None? ==> InVain(c, n, TurnLimitOf(settings))
      ensures r == Err(TurnLimit) ==> started == TurnLimitOf(settings)
      ensures OnAndOn(c) && old(signal).None? ==>
        |script| < TurnLimitOf(settings) || r == Err(TurnLimit)
    {
      hide Valid, IsChart, WentOn, Final, NoneFinal, InVain, OnAndOn, RunMarks, Within, TurnLimitOf, TurnsLeft;
      BeforeAnyTurn(script, c);
      ghost var unfired := signal.None?;
      while TurnsLeft(settings, started)
        invariant Valid() && started <= TurnLimitOf(settings) && started <= |script| && marks == RunMarks(script, started)
        invariant (signal.None? <==> unfired && WentOn(c, started)) && (unfired ==> NoneFinal(c, started))
        decreases TurnLimitOf(settings) - started
      {
        LimitIsLeast(settings, started);
        n := started;
        if started == |script| {
          if unfired { OutOfTurns(c, script, started, settings); }
          return Err(StreamFailed), n;
        }
        var done := Pass(script, c, unfired);
        if done.Err? { return Err(done.error), n; }
        if done.value { return Ok(()), n; }
      }
      LimitIsLeast(settings, started);
      if unfired { OutOfTurns(c, script, started, settings); }
      return Err(TurnLimit), started;
    }

    /**
     `AgentRunner.run`. Whatever the model, the tools and the outside do: the run ends well exactly when its
     signal has not fired before and the script ends it with some turn. No more turns start than the budget
     has, a fraction counting as one.
     */
    method Run(script: seq<Turn>) returns (r: Result<(), Failure>)
      requires Valid() && acts == []
      modifies this
      ensures Valid()
      ensures started <= TurnLimitOf(settings) && started <= |script|
      ensures r.Ok? ==> old(signal).None? && EndsWith(script, started, settings)
      ensures r.Err? ==> old(signal).Some? || NoEnd(script, settings)
      ensures r.Ok? ==> Within(usage, settings.budget) && marks == RunMarks(script, started)
      ensures r == Err(TurnLimit) ==> started == TurnLimitOf(settings)
      ensures AlwaysAsksOn(script) && settings.budget.maxCostUsd >= 0.0 && old(signal).None? ==>
        |script| < TurnLimitOf(settings) || r == Err(TurnLimit)
    {
      hide EndsWith, NoEnd, InVain, Final, OnAndOn, GoesOn, IsTrace, Total, Marks, TurnsStarted, RunMarks, AlwaysAsksOn,
           IsChart, WentOn, RunFits, Within;
      NothingDone(acts);
      ghost var c := ChartOf(script, settings);
      NothingYet(c, script, settings);
      if AlwaysAsksOn(script) && settings.budget.maxCostUsd >= 0.0 && signal.None? {
        AskingGoesOnAndOn(c, script, settings);
      }
      ghost var n: nat;
      r, n := Turns(script, c);
      ChartTells(c, script, started, n, old(signal).None?, r, settings);
    }
  }

  /** A run whose model asks on and on starts as many turns as the limit says. */
  method AskOnAndOn(settings: Settings) returns (agent: AgentExecution)
    requires settings.budget.maxToolCalls >= 0.0 && settings.budget.maxCostUsd >= 0.0
    ensures agent.settings == settings && agent.started == TurnLimitOf(settings)
    ensures settings.budget.maxTurns > 0.0 ==>
      (agent.started as real <= settings.budget.maxTurns <==> IsWhole(settings.budget.maxTurns))
  {
    agent := new AgentExecution(settings);
    var asking := Turn(true, [FREE_REPORT, ASKS_ON, STREAM_ENDS], []);
    var r := agent.Run(seq(TurnLimitOf(settings), _ => asking));
    if settings.budget.maxTurns > 0.0 { LimitFitsIffWhole(settings.budget); }
  }

  // ---- what the trace says

  lemma {:induction false} UsageOnlyGrows(acts: seq<Act>, i: nat, j: nat, b: Budget)
    requires i <= j <= |acts| && Within(Total(acts[..j]), b)
    ensures Within(Total(acts[..i]), b)
    decreases j
  {
    if i < j {
      assert acts[..j] == acts[..j - 1] + [acts[j - 1]];
      Appended(acts[..j - 1], acts[j - 1]);
      UsageOnlyGrows(acts, i, j - 1, b);
    }
  }

  lemma {:induction false} TraceAt(acts: seq<Act>, b: Budget, i: nat)
    requires IsTrace(acts, b) && i < |acts|
    ensures MayFollow(acts[..i], acts[i], b)
  {
    if i < |acts| - 1 {
      var before := acts[..|acts| - 1];
      TraceAt(before, b, i);
      assert before[..i] == acts[..i];
    }
  }

  /** Once the budget is exceeded, no turn starts any more. */
  lemma NoTurnAfterExcess(acts: seq<Act>, b: Budget, i: nat, j: nat)
    requires IsTrace(acts, b) && i <= j < |acts| && !Within(Total(acts[..i]), b)
    ensures !acts[j].StartTurn?
  {
    TraceAt(acts, b, j);
    if acts[j].StartTurn? { UsageOnlyGrows(acts, i, j, b); }
  }
}
