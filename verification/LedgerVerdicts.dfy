/** When a reservation is admitted, which limits count at all, and what `check_current` answers. */
module LedgerVerdicts {
  import opened Common
  import opened Totals
  import opened Ledger
  import opened LedgerRuns
  import opened LedgerTheorems
  import opened LedgerLimits

  // ---------- Which limits count ----------

  /** A reservation of unknown cost is judged and recorded as if the key had no budgets. */
  lemma UnknownCostSkipsBudgets(s: State, lim: Limits, e: Event)
    requires e.Reserve? && e.est.cost.None?
    ensures LedgerStep(s, lim, e) == LedgerStep(s, lim.(daily := None, monthly := None), e)
    ensures LedgerStep(s, lim, e).1 != OverDaily && LedgerStep(s, lim, e).1 != OverMonthly
  {
  }

  /** The limits that are set to a positive value. */
  function Positive(lim: Limits): Limits {
    Limits(
      if lim.rpm == Some(0) || (lim.rpm.Some? && lim.rpm.value < 0) then None else lim.rpm,
      if lim.tpm == Some(0) || (lim.tpm.Some? && lim.tpm.value < 0) then None else lim.tpm,
      if lim.daily == Some(0.0) || (lim.daily.Some? && lim.daily.value < 0.0) then None else lim.daily,
      if lim.monthly == Some(0.0) || (lim.monthly.Some? && lim.monthly.value < 0.0) then None else lim.monthly)
  }

  const UNLIMITED := Limits(None, None, None, None)

  /** A limit of zero or less is no limit, for every operation; without limits everything is admitted. */
  lemma OnlyPositiveLimitsCount(s: State, lim: Limits, e: Event)
    ensures LedgerStep(s, lim, e) == LedgerStep(s, Positive(lim), e)
    ensures Positive(lim) == UNLIMITED ==> LedgerStep(s, lim, e).1 == Admitted
  {
  }

  // ---------- When a reservation is admitted ----------

  ghost predicate RequestsFit(w: World, lim: Limits, e: Event)
    requires e.Reserve?
  {
    var m := Requests(LastMinute(e.now));
    lim.rpm.Some? && lim.rpm.value > 0 ==>
      |InMinute(w.history, m.start)| + StaleAmount(Pruned(w.ledger.minute, e.now), e.now, m) + 1 <= lim.rpm.value
  }

  ghost predicate TokensFit(w: World, lim: Limits, e: Event)
    requires e.Reserve?
  {
    lim.tpm.Some? && lim.tpm.value > 0 ==>
      TokensAsked(w, e) - Lost(Pruned(w.ledger.minute, e.now)) as real <= lim.tpm.value as real
  }

  ghost predicate BudgetFits(w: World, budget: Option<real>, cost: Option<real>, m: Meter) {
    cost.Some? && budget.Some? && budget.value > 0.0 ==> BilledTotal(w.history, m) + cost.value <= budget.value
  }

  lemma RatesDecide(w: World, lim: Limits, e: Event, v: Verdict)
    requires Sound(w) && ValidLimits(lim) && Allowed(w, e) && e.Reserve? && v == LedgerStep(w.ledger, lim, e).1
    ensures v == OverRequests <==> !RequestsFit(w, lim, e)
    ensures v == OverTokens <==> RequestsFit(w, lim, e) && !TokensFit(w, lim, e)
  {
    if lim.rpm.Some? && lim.rpm.value > 0 { RpmVerdictIsExact(w, lim, e); }
    if lim.tpm.Some? && lim.tpm.value > 0 { TpmVerdictIsExact(w, lim, e); }
  }

  /** What a verdict says about the two budgets. */
  ghost predicate SaysOfBudgets(v: Verdict, w: World, lim: Limits, e: Event)
    requires e.Reserve?
  {
    var day := BudgetFits(w, lim.daily, e.est.cost, Daily(e.wall));
    var month := BudgetFits(w, lim.monthly, e.est.cost, Monthly(e.wall.MonthKey()));
    && (v == OverDaily ==> !day)
    && (v == OverMonthly ==> day && !month)
    && (v == Admitted ==> day && month)
  }

  lemma NamesBudget(lim: Limits, est: Estimate, u: Usage)
    requires est.cost.Some?
    ensures var v := ReserveVerdict(lim, est, u);
      var day := lim.daily.Some? && lim.daily.value > 0.0 ==> u.daily + est.cost.value <= lim.daily.value;
      var month := lim.monthly.Some? && lim.monthly.value > 0.0 ==> u.monthly + est.cost.value <= lim.monthly.value;
      (v == OverDaily ==> !day) && (v == OverMonthly ==> day && !month) && (v == Admitted ==> day && month)
  {
  }

  lemma KnownCostDecides(w: World, lim: Limits, e: Event)
    requires Sound(w) && Allowed(w, e) && e.Reserve? && e.est.cost.Some?
    ensures SaysOfBudgets(LedgerStep(w.ledger, lim, e).1, w, lim, e)
  {
    var t := Ticked(w, e.wall, e.now);
    TickSound(w, e.wall, e.now);
    CountsSpend(t, Daily(e.wall));
    CountsSpend(t, Monthly(e.wall.MonthKey()));
    NamesBudget(lim, e.est, Reading(t.ledger, e.wall, e.now));
  }

  lemma UnknownCostDecides(w: World, lim: Limits, e: Event)
    requires e.Reserve? && e.est.cost.None?
    ensures SaysOfBudgets(LedgerStep(w.ledger, lim, e).1, w, lim, e)
  {
    UnknownCostSkipsBudgets(w.ledger, lim, e);
  }

  lemma BudgetsDecide(w: World, lim: Limits, e: Event)
    requires Sound(w) && Allowed(w, e) && e.Reserve?
    ensures SaysOfBudgets(LedgerStep(w.ledger, lim, e).1, w, lim, e)
  {
    if e.est.cost.Some? { KnownCostDecides(w, lim, e); } else { UnknownCostDecides(w, lim, e); }
  }

  /** A reservation is admitted exactly when its request, its tokens and, if its cost is known, its cost fit every limit
      that is set to a positive value; and a rejection names the first one that does not fit. */
  lemma AdmittedExactly(w: World, lim: Limits, e: Event, v: Verdict)
    requires Sound(w) && ValidLimits(lim) && Allowed(w, e) && e.Reserve? && v == LedgerStep(w.ledger, lim, e).1
    ensures v ==
      if !RequestsFit(w, lim, e) then OverRequests
      else if !TokensFit(w, lim, e) then OverTokens
      else if !BudgetFits(w, lim.daily, e.est.cost, Daily(e.wall)) then OverDaily
      else if !BudgetFits(w, lim.monthly, e.est.cost, Monthly(e.wall.MonthKey())) then OverMonthly
      else Admitted
  {
    RatesDecide(w, lim, e, v);
    BudgetsDecide(w, lim, e);
    assert SaysOfBudgets(v, w, lim, e);
  }

  // ---------- What check_current answers ----------

  /** An amount that fits under every positive budget that is not used up. */
  function SmallCost(lim: Limits, u: Usage): real {
    var daily := if lim.daily.Some? && lim.daily.value > u.daily then lim.daily.value - u.daily else 1.0;
    var monthly := if lim.monthly.Some? && lim.monthly.value > u.monthly then lim.monthly.value - u.monthly else 1.0;
    MinReal(daily, monthly)
  }

  lemma OneMoreIsTooMany(u: real, count: int, limit: int)
    requires u == count as real && limit <= I64_MAX
    ensures Saturated(u + 1.0) > limit as real <==> u >= limit as real
  {
    if count >= limit {
      assert u >= limit as real;
    } else {
      assert count + 1 <= limit;
      assert u + 1.0 == (count + 1) as real <= limit as real;
    }
  }

  lemma SmallCostFits(lim: Limits, u: Usage, cost: real)
    requires 0.0 < cost <= SmallCost(lim, u)
    ensures lim.daily.Some? ==> (u.daily + cost > lim.daily.value <==> u.daily >= lim.daily.value)
    ensures lim.monthly.Some? ==> (u.monthly + cost > lim.monthly.value <==> u.monthly >= lim.monthly.value)
  {
  }

  lemma SmallestVerdict(lim: Limits, u: Usage, requests: int, tokens: int, cost: real)
    requires ValidLimits(lim) && u.requests == requests as real && u.tokens == tokens as real
    requires 0.0 < cost <= SmallCost(lim, u)
    ensures ReserveVerdict(lim, Estimate(1, Some(cost)), u) == CheckVerdict(lim, u)
  {
    if lim.rpm.Some? { OneMoreIsTooMany(u.requests, requests, lim.rpm.value); }
    if lim.tpm.Some? { OneMoreIsTooMany(u.tokens, tokens, lim.tpm.value); }
    SmallCostFits(lim, u, cost);
  }

  /** `check_current` answers, limit by limit, what a reservation of one token and any small enough positive cost would
      be told in its place. */
  lemma CheckAnswersForSmallest(s: State, lim: Limits, wall: Date, now: nat)
    requires ValidLimits(lim)
    ensures var u := Reading(s, wall, now);
      && SmallCost(lim, u) > 0.0
      && forall cost: real :: 0.0 < cost <= SmallCost(lim, u) ==>
           ReserveVerdict(lim, Estimate(1, Some(cost)), u) == CheckVerdict(lim, u)
  {
    var requests, tokens := ReadingWhole(s, wall, now);
    forall cost: real | 0.0 < cost <= SmallCost(lim, Reading(s, wall, now))
      ensures ReserveVerdict(lim, Estimate(1, Some(cost)), Reading(s, wall, now))
           == CheckVerdict(lim, Reading(s, wall, now))
    {
      SmallestVerdict(lim, Reading(s, wall, now), requests, tokens, cost);
    }
  }
}
