/** Estimates and bills meet the ledger: traffic that stays within its estimates keeps every limit. */
module Billing {
  import opened Common
  import opened Totals
  import opened Ledger
  import opened LedgerRuns
  import opened LedgerTheorems
  import opened LedgerLimits
  import opened LedgerTokens
  import opened Cost

  /** What one request was quoted for: the models it may be served by and its ask. */
  datatype Quote = Quote(models: set<ModelRow>, ask: Ask)

  /** `AdmissionReservation::reconcile`: incomplete usage settles at the reservation, cost included. */
  function SettledTokens(u: TokenUsage): Option<nat> {
    if u.input.Some? && u.output.Some? then Some(SatAdd(u.input.value, u.output.value)) else None
  }

  function SettledCost(u: TokenUsage, cost: Option<real>): Option<real> {
    if SettledTokens(u).Some? then cost else None
  }

  /** A usage report settles as its input and output together, saturated, and its bill; one that lacks either settles
      as reserved, whatever its bill. */
  lemma SettlesBoth(u: TokenUsage, cost: Option<real>)
    ensures u.input.None? || u.output.None? ==> SettledTokens(u) == None && SettledCost(u, cost) == None
    ensures u.input.Some? && u.output.Some? ==>
      var sum := u.input.value + u.output.value;
      && SettledTokens(u) == Some(if sum <= U64_MAX then sum else U64_MAX)
      && SettledCost(u, cost) == cost
  {
  }

  /** The provider stayed within the estimated input and the model's output reservation. */
  predicate UsageWithin(u: TokenUsage, ask: Ask, model: ModelRow) {
    u.input.Or(0) <= ask.input && u.output.Or(0) <= OutputReservation(ask, model)
  }

  /** What is reserved for a model is no more than it must be: some usage within the ask settles at exactly these tokens
      and, if the cost is known, at exactly this cost. */
  lemma ReservationIsReached(ask: Ask, model: ModelRow)
    ensures var u := DearestUsage(model.prices, ask.input, OutputReservation(ask, model));
      && UsageWithin(u, ask, model)
      && SettledTokens(u) == Some(TokensFor(ask, model))
      && ComputeCost(model.prices, u) == CostFor(ask, model)
  {
    ConservativeIsReached(model.prices, ask.input, OutputReservation(ask, model));
  }

  predicate PricesSane(models: set<ModelRow>) {
    forall m :: m in models ==> NonnegPrices(m.prices)
  }

  /** For usage within the estimated input and the output reservation, a request served by any permitted model settles
      within what was reserved for it, and if the estimate's cost was known then so is the bill. */
  lemma SettlesWithinEstimate(q: Quote, est: Estimate, model: ModelRow, u: TokenUsage)
    requires IsEstimate(est, q.models, q.ask) && PricesSane(q.models)
    requires model in q.models && UsageWithin(u, q.ask, model)
    ensures SettledTokens(u).Some? ==> SettledTokens(u).value <= est.tokens
    ensures est.cost.Some? ==>
      var bill := ComputeCost(model.prices, u);
      bill.Some? && 0.0 <= bill.value <= est.cost.value
  {
    assert TokensFor(q.ask, model) <= est.tokens;
    if est.cost.Some? {
      assert CostFor(q.ask, model).Some?;
      BillWithinConservative(model.prices, u, q.ask.input, OutputReservation(q.ask, model));
    }
  }

  /** One settlement event as the request path produces it, for usage within the ask. */
  ghost predicate BilledFor(q: Quote, tokens: Option<nat>, cost: Option<real>) {
    exists model, u :: model in q.models && UsageWithin(u, q.ask, model)
      && tokens == SettledTokens(u) && cost == SettledCost(u, ComputeCost(model.prices, u))
  }

  /** A quoted request reserves the estimate of its quote, with a known cost, and is billed for usage within its ask.
      Nothing is asked of a request without a quote. */
  ghost predicate Quoted(quotes: map<nat, Quote>, e: Event) {
    && (e.Reserve? && e.id in quotes ==>
          IsEstimate(e.est, quotes[e.id].models, quotes[e.id].ask) && e.est.cost.Some?)
    && (e.Reconcile? && e.id in quotes ==> BilledFor(quotes[e.id], e.tokens, e.cost))
  }

  ghost predicate RecordHonest(q: Quote, r: Record) {
    && r.res.cost.Some? && IsEstimate(Estimate(r.res.tokens, r.res.cost), q.models, q.ask)
    && (r.fate.Paid? ==> r.fate.tokens <= r.res.tokens && CostOr0(r.fate.cost) <= r.res.cost.value)
  }

  ghost predicate AllHonest(quotes: map<nat, Quote>, h: History) {
    forall id :: id in h && id in quotes ==> RecordHonest(quotes[id], h[id])
  }

  lemma SettlementHonest(q: Quote, r: Record, tokens: Option<nat>, cost: Option<real>)
    requires RecordHonest(q, r) && PricesSane(q.models) && BilledFor(q, tokens, cost)
    ensures RecordHonest(q, r.(fate := Paid(tokens.Or(r.res.tokens), FinalCost(cost, r.res.cost))))
  {
    var model, u :| model in q.models && UsageWithin(u, q.ask, model)
      && tokens == SettledTokens(u) && cost == SettledCost(u, ComputeCost(model.prices, u));
    SettlesWithinEstimate(q, Estimate(r.res.tokens, r.res.cost), model, u);
  }

  lemma StepHonest(quotes: map<nat, Quote>, w: World, lim: Limits, e: Event)
    requires AllHonest(quotes, w.history) && Quoted(quotes, e)
    requires forall id :: id in quotes ==> PricesSane(quotes[id].models)
    ensures AllHonest(quotes, HistoryStep(w, lim, e))
  {
    if e.Reconcile? && e.id in quotes && e.id in w.history && w.history[e.id].fate.Open? {
      SettlementHonest(quotes[e.id], w.history[e.id], e.tokens, e.cost);
    }
  }

  lemma {:induction false} RunHonest(quotes: map<nat, Quote>, w: World, lim: Limits, es: seq<Event>)
    requires AllHonest(quotes, w.history)
    requires forall id :: id in quotes ==> PricesSane(quotes[id].models)
    requires forall i :: 0 <= i < |es| ==> Quoted(quotes, es[i])
    ensures AllHonest(quotes, Run(w, lim, es).history)
  {
    if es != [] {
      RunHonest(quotes, w, lim, es[..|es| - 1]);
      StepHonest(quotes, Run(w, lim, es[..|es| - 1]), lim, es[|es| - 1]);
    }
  }

  // ---------- Any traffic ----------

  /** By how much the requests without a quote were charged beyond their own reservations. */
  ghost function OverrunMap(quotes: map<nat, Quote>, h: History, m: Meter): map<nat, real> {
    map id | id in h :: if id in quotes then 0.0 else Excess(h[id], m)
  }

  ghost function OverrunTotal(quotes: map<nat, Quote>, h: History, m: Meter): real {
    Total(OverrunMap(quotes, h, m))
  }

  lemma HonestHasNoExcess(q: Quote, r: Record, m: Meter)
    requires RecordHonest(q, r)
    ensures Excess(r, m) <= 0.0
  {
  }

  lemma ExcessIsOverrun(quotes: map<nat, Quote>, h: History, m: Meter)
    requires AllHonest(quotes, h)
    ensures ExcessTotal(h, m) <= OverrunTotal(quotes, h, m)
  {
    forall id | id in h ensures ExcessMap(h, m)[id] <= OverrunMap(quotes, h, m)[id] {
      if id in quotes { HonestHasNoExcess(quotes[id], h[id], m); }
    }
    TotalMono(ExcessMap(h, m), OverrunMap(quotes, h, m));
  }

  /** A ledger that has seen nothing yet. */
  function Fresh(clock: nat, wall: Date): World {
    World(EMPTY, map[], [], clock, wall)
  }

  /** What wrapped sums hid from the check on this meter; only the token check reads such a sum. */
  ghost function HiddenFrom(m: Meter, lim: Limits, es: seq<Event>, clock: nat, wall: Date): real {
    if m.Tokens? then MostLost(Fresh(clock, wall), lim, es) as real else 0.0
  }

  /** Every meter is charged at most its limit plus the excess of settlements over reservations, and for tokens the most
      that a wrapped sum hid. */
  lemma ChargedWithinExcess(lim: Limits, es: seq<Event>, m: Meter, clock: nat, wall: Date)
    requires ValidLimits(lim) && LimitOf(lim, m).Some? && AllAllowed(Fresh(clock, wall), lim, es)
    ensures var h := Run(Fresh(clock, wall), lim, es).history;
      BilledTotal(h, m) <= LimitOf(lim, m).value + ExcessTotal(h, m) + HiddenFrom(m, lim, es, clock, wall)
  {
    var w := Fresh(clock, wall);
    EmptyKeeps(lim, clock, wall);
    match m {
      case Requests(_) => {
        var h := Run(w, lim, es).history;
        assert MeterWithin(h, lim, m) by { RunKeeps(w, lim, es); }
        BilledSplits(h, m);
      }
      case Tokens(start) => {
        NothingKept(lim.tpm.value as real);
        TokensWithinExcess(w, lim, es, start);
      }
      case Daily(_) => SpendWithinBudget(w, lim, es, m);
      case Monthly(_) => SpendWithinBudget(w, lim, es, m);
    }
  }

  /** A request that outruns its estimate, or whose cost was never known, costs a limit only its own overrun: whatever
      share of the traffic is quoted, every minute, day and month is charged at most its limit plus the overruns of
      the other requests, and for tokens the most that a wrapped sum hid, which is nothing unless the deque's sum
      wraps. */
  lemma OverrunsCostOnlyThemselves(
    quotes: map<nat, Quote>, lim: Limits, es: seq<Event>, m: Meter, clock: nat, wall: Date)
    requires ValidLimits(lim) && LimitOf(lim, m).Some?
    requires AllAllowed(Fresh(clock, wall), lim, es)
    requires forall id :: id in quotes ==> PricesSane(quotes[id].models)
    requires forall i :: 0 <= i < |es| ==> Quoted(quotes, es[i])
    ensures var h := Run(Fresh(clock, wall), lim, es).history;
      BilledTotal(h, m) <=
      LimitOf(lim, m).value + OverrunTotal(quotes, h, m) + HiddenFrom(m, lim, es, clock, wall)
    ensures SumsFit(Fresh(clock, wall), lim, es) ==> HiddenFrom(m, lim, es, clock, wall) == 0.0
  {
    var w := Fresh(clock, wall);
    ChargedWithinExcess(lim, es, m, clock, wall);
    RunHonest(quotes, w, lim, es);
    ExcessIsOverrun(quotes, Run(w, lim, es).history, m);
    NothingLostIff(w, lim, es);
  }

  // ---------- Traffic that is quoted throughout ----------

  lemma {:induction false} RunQuoted(quotes: map<nat, Quote>, w: World, lim: Limits, es: seq<Event>)
    requires w.history.Keys <= quotes.Keys
    requires forall i :: 0 <= i < |es| && es[i].Reserve? ==> es[i].id in quotes
    ensures Run(w, lim, es).history.Keys <= quotes.Keys
  {
    if es != [] { RunQuoted(quotes, w, lim, es[..|es| - 1]); }
  }

  lemma HonestRecords(quotes: map<nat, Quote>, h: History)
    requires AllHonest(quotes, h) && h.Keys <= quotes.Keys
    ensures TokensHonest(h) && CostsHonest(h)
  {
    forall id | id in h ensures RecordHonest(quotes[id], h[id]) {
    }
  }

  lemma RequestsBilled(w: World, lim: Limits, es: seq<Event>, m: Meter)
    requires Inv(w, lim) && ValidLimits(lim) && AllAllowed(w, lim, es) && m.Requests? && LimitOf(lim, m).Some?
    ensures BilledTotal(Run(w, lim, es).history, m) <= LimitOf(lim, m).value
  {
    var h := Run(w, lim, es).history;
    assert MeterWithin(h, lim, m) by { RunKeeps(w, lim, es); }
    assert BilledMap(h, m) == KeptMap(h, m);
  }

  lemma HonestKeepsLimits(w: World, lim: Limits, es: seq<Event>, m: Meter)
    requires Inv(w, lim) && ValidLimits(lim) && AllAllowed(w, lim, es) && LimitOf(lim, m).Some?
    requires TokensHonest(Run(w, lim, es).history) && CostsHonest(Run(w, lim, es).history)
    ensures BilledTotal(Run(w, lim, es).history, m) <= LimitOf(lim, m).value
  {
    match m
    case Requests(start) => RequestsBilled(w, lim, es, m);
    case Tokens(start) => TokensWithinLimit(w, lim, es, start);
    case Daily(_) => SpendNeverExceedsBudget(w, lim, es, m);
    case Monthly(_) => SpendNeverExceedsBudget(w, lim, es, m);
  }

  /** If every request is quoted, that is, every estimate has a known cost and no request uses more input than was
      estimated for it or more output than was reserved, then every request limit, token limit and budget is kept, in
      every minute, day and month of every run. */
  lemma BilledTrafficKeepsLimits(quotes: map<nat, Quote>, lim: Limits, es: seq<Event>, m: Meter, clock: nat, wall: Date)
    requires ValidLimits(lim) && LimitOf(lim, m).Some?
    requires AllAllowed(Fresh(clock, wall), lim, es)
    requires forall id :: id in quotes ==> PricesSane(quotes[id].models)
    requires forall i :: 0 <= i < |es| ==> Quoted(quotes, es[i]) && (es[i].Reserve? ==> es[i].id in quotes)
    ensures BilledTotal(Run(Fresh(clock, wall), lim, es).history, m) <= LimitOf(lim, m).value
  {
    var w := Fresh(clock, wall);
    EmptyKeeps(lim, clock, wall);
    RunHonest(quotes, w, lim, es);
    RunQuoted(quotes, w, lim, es);
    HonestRecords(quotes, Run(w, lim, es).history);
    HonestKeepsLimits(w, lim, es, m);
  }
}
