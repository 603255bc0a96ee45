/** A run's budget, and the usage that is recorded against it. */
module RunBudgets {
  import opened Wrappers

  type Amount = r: real | r >= 0.0

  /**
   Amounts are numbers, not necessarily whole: the request schema demands whole turns, calls, tokens and
   timeouts of a root's budget, and nothing does of a child's.
   */
  datatype Budget = Budget(
    maxTurns: real, maxToolCalls: real, maxInputTokens: real, maxOutputTokens: real, maxCostUsd: real,
    totalTimeoutMs: real, modelIdleTimeoutMs: real, commandTimeoutMs: real)

  /** `None` stands for usage that the provider never reported. */
  datatype Usage = Usage(
    inputTokens: Option<Amount>, outputTokens: Option<Amount>, costUsd: Option<Amount>, toolCalls: nat)

  const UNREPORTED := Usage(None, None, None, 0)

  predicate IsWhole(r: real) { r == r.Floor as real }

  function Ceiling(r: real): int { -((-r).Floor) }

  lemma CeilingIsNear(r: real)
    ensures r <= Ceiling(r) as real < r + 1.0
  {
    var down := (-r).Floor;
    assert down as real <= -r < down as real + 1.0;
    assert (-down) as real == -(down as real);
  }

  /** Whole numbers are one apart at least. */
  lemma WholeApart(m: int, n: int)
    ensures m < n <==> m as real < n as real
    ensures m < n ==> m as real + 1.0 <= n as real
  {}

  /** The ceiling is the least whole number that is not below. */
  lemma CeilingIsLeast(r: real, n: int)
    ensures Ceiling(r) <= n <==> r <= n as real
  {
    CeilingIsNear(r);
    WholeApart(n, Ceiling(r));
  }

  lemma CeilingFitsIffWhole(r: real)
    ensures Ceiling(r) as real <= r <==> IsWhole(r)
  {
    CeilingIsNear(r);
    if IsWhole(r) {
      CeilingIsLeast(r, r.Floor);
      WholeApart(r.Floor, Ceiling(r));
    } else if Ceiling(r) as real <= r {
      WholeApart(Ceiling(r), r.Floor);
      WholeApart(r.Floor, Ceiling(r));
    }
  }

  /** Whole numbers fit under a bound when they fit under its whole part. */
  lemma FloorIsGreatest(n: int, r: real)
    ensures n as real <= r <==> n <= r.Floor
  {
    WholeApart(r.Floor, n);
  }

  function PlusAmount(total: Option<Amount>, delta: Option<Amount>): Option<Amount> {
    if delta.None? then total else Some((if total.Some? then total.value else 0.0) + delta.value)
  }

  /** Reported usage adds up; what was not reported stays as it was. */
  function PlusUsage(total: Usage, delta: Usage): Usage {
    Usage(PlusAmount(total.inputTokens, delta.inputTokens), PlusAmount(total.outputTokens, delta.outputTokens),
          PlusAmount(total.costUsd, delta.costUsd), total.toolCalls + delta.toolCalls)
  }

  /** No dimension that is enforced while a run executes is exceeded; unknown usage exceeds nothing. */
  predicate Within(u: Usage, b: Budget) {
    && (u.inputTokens.Some? ==> u.inputTokens.value <= b.maxInputTokens)
    && (u.outputTokens.Some? ==> u.outputTokens.value <= b.maxOutputTokens)
    && (u.costUsd.Some? ==> u.costUsd.value <= b.maxCostUsd)
    && u.toolCalls as real <= b.maxToolCalls
  }
}
