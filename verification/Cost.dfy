/** Billing (`src/cost.rs`) and the estimate that admission reserves for a request (`src/admission.rs`). */
module Cost {
  import opened Common
  import opened Ledger

  datatype Prices = Prices(
    input: Option<real>, output: Option<real>, cached: Option<real>, cacheWrite: Option<real>, thinking: Option<real>)
  {
    predicate IsConfigured() { input.Some? || output.Some? }
  }

  datatype TokenUsage = TokenUsage(
    input: Option<nat>, output: Option<nat>, cached: Option<nat>, cacheWrite: Option<nat>, thinking: Option<nat>)

  predicate Nonneg(p: Option<real>) { p.Some? ==> p.value >= 0.0 }

  predicate NonnegPrices(p: Prices) {
    Nonneg(p.input) && Nonneg(p.output) && Nonneg(p.cached) && Nonneg(p.cacheWrite) && Nonneg(p.thinking)
  }

  /** The reported totals, partitioned so that overlapping detail counters never add tokens. */
  datatype Parts = Parts(regularInput: nat, cached: nat, cacheWrite: nat, regularOutput: nat, thinking: nat)

  function Partition(u: TokenUsage): (r: Parts)
    ensures r.regularInput + r.cached + r.cacheWrite == u.input.Or(0)
    ensures r.regularOutput + r.thinking == u.output.Or(0)
  {
    var input, output := u.input.Or(0), u.output.Or(0);
    var cached := Min(u.cached.Or(0), input);
    var cacheWrite := Min(u.cacheWrite.Or(0), input - cached);
    var thinking := Min(u.thinking.Or(0), output);
    Parts(input - cached - cacheWrite, cached, cacheWrite, output - thinking, thinking)
  }

  function ThreeParts(a: real, pa: real, b: real, pb: real, c: real, pc: real): real {
    a * pa + b * pb + c * pc
  }

  function InputBill(p: Prices, regular: real, cached: real, cacheWrite: real): real {
    var price := p.input.Or(0.0);
    ThreeParts(regular, price, cached, p.cached.Or(price), cacheWrite, p.cacheWrite.Or(price))
  }

  function TwoParts(a: real, pa: real, b: real, pb: real): real {
    a * pa + b * pb
  }

  function OutputBill(p: Prices, regular: real, thinking: real): real {
    var price := p.output.Or(0.0);
    TwoParts(regular, price, thinking, p.thinking.Or(price))
  }

  function Millionths(x: real): real { x / 1_000_000.0 }

  /** A price missing for tokens that were used leaves the whole amount unknown. */
  predicate Priced(p: Prices, input: nat, output: nat) {
    p.IsConfigured() && (p.input.None? ==> input == 0) && (p.output.None? ==> output == 0)
  }

  /** `compute_cost`. */
  function ComputeCost(p: Prices, u: TokenUsage): Option<real> {
    var parts := Partition(u);
    if !Priced(p, u.input.Or(0), u.output.Or(0)) then None
    else Some(Millionths(InputBill(p, parts.regularInput as real, parts.cached as real, parts.cacheWrite as real)
                         + OutputBill(p, parts.regularOutput as real, parts.thinking as real)))
  }

  function InputRate(p: Prices): real {
    var base := p.input.Or(0.0);
    MaxReal(MaxReal(base, p.cached.Or(base)), p.cacheWrite.Or(base))
  }

  function OutputRate(p: Prices): real {
    var base := p.output.Or(0.0);
    MaxReal(base, p.thinking.Or(base))
  }

  function CheapestInput(p: Prices): real {
    var base := p.input.Or(0.0);
    MinReal(MinReal(base, p.cached.Or(base)), p.cacheWrite.Or(base))
  }

  function CheapestOutput(p: Prices): real {
    var base := p.output.Or(0.0);
    MinReal(base, p.thinking.Or(base))
  }

  function AtRate(x: real, rate: real): real { x * rate }

  function AtRates(input: real, inputRate: real, output: real, outputRate: real): real {
    Millionths(AtRate(input, inputRate) + AtRate(output, outputRate))
  }

  function AtDearest(p: Prices, input: real, output: real): real {
    AtRates(input, InputRate(p), output, OutputRate(p))
  }

  /** `conservative_cost`: every token at the dearest rate it could be billed at. */
  function ConservativeCost(p: Prices, input: nat, output: nat): Option<real> {
    if !Priced(p, input, output) then None
    else Some(AtDearest(p, input as real, output as real))
  }

  function AtCheapest(p: Prices, input: real, output: real): real {
    AtRates(input, CheapestInput(p), output, CheapestOutput(p))
  }

  lemma RateMono(x: real, lo: real, p: real, hi: real)
    requires x >= 0.0 && lo <= p <= hi
    ensures AtRate(x, lo) <= x * p <= AtRate(x, hi)
  {
    assert x * (p - lo) >= 0.0 && x * (hi - p) >= 0.0;
  }

  lemma AmountMono(x: real, y: real, rate: real)
    requires x <= y && rate >= 0.0
    ensures AtRate(x, rate) <= AtRate(y, rate)
  {
  }

  lemma RateSplits(a: real, b: real, c: real, rate: real)
    ensures AtRate(a + b + c, rate) == AtRate(a, rate) + AtRate(b, rate) + AtRate(c, rate)
  {
  }

  /** A quantity billed in three parts costs between its cheapest and its dearest rate. */
  lemma PartsBetween(a: real, pa: real, b: real, pb: real, c: real, pc: real, lo: real, hi: real)
    requires a >= 0.0 && b >= 0.0 && c >= 0.0
    requires lo <= pa <= hi && lo <= pb <= hi && lo <= pc <= hi
    ensures AtRate(a + b + c, lo) <= ThreeParts(a, pa, b, pb, c, pc) <= AtRate(a + b + c, hi)
  {
    RateMono(a, lo, pa, hi);
    RateMono(b, lo, pb, hi);
    RateMono(c, lo, pc, hi);
    RateSplits(a, b, c, lo);
    RateSplits(a, b, c, hi);
  }

  lemma InputBetween(p: Prices, a: real, b: real, c: real, total: real)
    requires a >= 0.0 && b >= 0.0 && c >= 0.0 && total == a + b + c
    ensures AtRate(total, CheapestInput(p)) <= InputBill(p, a, b, c) <= AtRate(total, InputRate(p))
  {
    var price := p.input.Or(0.0);
    PartsBetween(a, price, b, p.cached.Or(price), c, p.cacheWrite.Or(price), CheapestInput(p), InputRate(p));
  }

  lemma OutputBetween(p: Prices, a: real, b: real, total: real)
    requires a >= 0.0 && b >= 0.0 && total == a + b
    ensures AtRate(total, CheapestOutput(p)) <= OutputBill(p, a, b) <= AtRate(total, OutputRate(p))
  {
    var price := p.output.Or(0.0);
    PartsBetween(a, price, b, p.thinking.Or(price), 0.0, price, CheapestOutput(p), OutputRate(p));
  }

  lemma SumsBetween(x: real, lo1: real, bill1: real, hi1: real, y: real, lo2: real, bill2: real, hi2: real)
    requires AtRate(x, lo1) <= bill1 <= AtRate(x, hi1) && AtRate(y, lo2) <= bill2 <= AtRate(y, hi2)
    ensures AtRates(x, lo1, y, lo2) <= Millionths(bill1 + bill2) <= AtRates(x, hi1, y, hi2)
  {
  }

  /** Every reported token is billed exactly once, at one of its own prices: the bill lies between all tokens at the
      cheapest and all tokens at the dearest rate, whatever the detail counters say. */
  lemma BillBetween(p: Prices, u: TokenUsage)
    requires ComputeCost(p, u).Some?
    ensures var input, output := u.input.Or(0) as real, u.output.Or(0) as real;
      AtCheapest(p, input, output) <= ComputeCost(p, u).value <= AtDearest(p, input, output)
  {
    var input, output := u.input.Or(0) as real, u.output.Or(0) as real;
    var q := Partition(u);
    var a, b, c := q.regularInput as real, q.cached as real, q.cacheWrite as real;
    var d, e := q.regularOutput as real, q.thinking as real;
    InputBetween(p, a, b, c, input);
    OutputBetween(p, d, e, output);
    SumsBetween(input, CheapestInput(p), InputBill(p, a, b, c), InputRate(p),
                output, CheapestOutput(p), OutputBill(p, d, e), OutputRate(p));
  }

  lemma RatesMono(x: real, x': real, r: real, y: real, y': real, s: real)
    requires r >= 0.0 && s >= 0.0 && x <= x' && y <= y'
    ensures AtRates(x, r, y, s) <= AtRates(x', r, y', s)
  {
    AmountMono(x, x', r);
    AmountMono(y, y', s);
  }

  lemma RatesNonneg(x: real, r: real, y: real, s: real)
    requires r >= 0.0 && s >= 0.0 && x >= 0.0 && y >= 0.0
    ensures AtRates(x, r, y, s) >= 0.0
  {
  }

  /** The reservation dominates the bill. */
  lemma BillWithinConservative(p: Prices, u: TokenUsage, input: nat, output: nat)
    requires NonnegPrices(p) && ConservativeCost(p, input, output).Some?
    requires u.input.Or(0) <= input && u.output.Or(0) <= output
    ensures ComputeCost(p, u).Some?
    ensures 0.0 <= ComputeCost(p, u).value <= ConservativeCost(p, input, output).value
  {
    BillBetween(p, u);
    var ui, uo := u.input.Or(0) as real, u.output.Or(0) as real;
    RatesNonneg(ui, CheapestInput(p), uo, CheapestOutput(p));
    RatesMono(ui, input as real, InputRate(p), uo, output as real, OutputRate(p));
  }

  // ---------- When a cost is known ----------

  /** A bill is known exactly when the model has an input or an output price and no token is reported without one. */
  lemma BillIsKnown(p: Prices, u: TokenUsage)
    ensures ComputeCost(p, u).Some? <==>
      && (p.input.Some? || p.output.Some?)
      && (u.input.Or(0) > 0 ==> p.input.Some?) && (u.output.Or(0) > 0 ==> p.output.Some?)
  {
  }

  lemma ConservativeIsKnown(p: Prices, input: nat, output: nat)
    ensures ConservativeCost(p, input, output).Some? <==>
      (p.input.Some? || p.output.Some?) && (input > 0 ==> p.input.Some?) && (output > 0 ==> p.output.Some?)
  {
  }

  /** Usage with these totals, all of it in the dearest class. */
  function DearestUsage(p: Prices, input: nat, output: nat): TokenUsage {
    var price, rate := p.input.Or(0.0), InputRate(p);
    TokenUsage(
      Some(input), Some(output),
      if p.cached.Or(price) == rate then Some(input) else Some(0),
      if p.cacheWrite.Or(price) == rate then Some(input) else Some(0),
      if p.thinking.Or(p.output.Or(0.0)) == OutputRate(p) then Some(output) else Some(0))
  }

  lemma AllAtOneRate(x: real, a: real, b: real, c: real)
    ensures ThreeParts(x, a, 0.0, b, 0.0, c) == AtRate(x, a)
    ensures ThreeParts(0.0, a, x, b, 0.0, c) == AtRate(x, b)
    ensures ThreeParts(0.0, a, 0.0, b, x, c) == AtRate(x, c)
    ensures TwoParts(x, a, 0.0, b) == AtRate(x, a) && TwoParts(0.0, a, x, b) == AtRate(x, b)
  {
  }

  /** The conservative cost is no more than it must be: some usage of just these totals is billed exactly that. */
  lemma ConservativeIsReached(p: Prices, input: nat, output: nat)
    ensures ComputeCost(p, DearestUsage(p, input, output)) == ConservativeCost(p, input, output)
    ensures var u := DearestUsage(p, input, output); u.input == Some(input) && u.output == Some(output)
  {
    var price, out := p.input.Or(0.0), p.output.Or(0.0);
    AllAtOneRate(input as real, price, p.cached.Or(price), p.cacheWrite.Or(price));
    AllAtOneRate(output as real, out, p.thinking.Or(out), 0.0);
  }

  // ---------- Token by token ----------

  /** The price of the token at position `i` when the first tokens have one price, the next ones another. */
  function TokenPrice(i: nat, first: nat, second: nat, p1: real, p2: real, rest: real): real {
    if i < first then p1 else if i < first + second then p2 else rest
  }

  function TokenSum(n: nat, first: nat, second: nat, p1: real, p2: real, rest: real): real {
    if n == 0 then 0.0
    else TokenSum(n - 1, first, second, p1, p2, rest) + TokenPrice(n - 1, first, second, p1, p2, rest)
  }

  lemma OneMore(a: real, pa: real, b: real, pb: real, c: real, pc: real)
    ensures ThreeParts(a + 1.0, pa, b, pb, c, pc) == ThreeParts(a, pa, b, pb, c, pc) + pa
    ensures ThreeParts(a, pa, b + 1.0, pb, c, pc) == ThreeParts(a, pa, b, pb, c, pc) + pb
    ensures ThreeParts(a, pa, b, pb, c + 1.0, pc) == ThreeParts(a, pa, b, pb, c, pc) + pc
  {
  }

  lemma {:induction false} TokenSumParts(n: nat, first: nat, second: nat, p1: real, p2: real, rest: real)
    ensures var a := Min(first, n);
      var b := Min(second, n - a);
      TokenSum(n, first, second, p1, p2, rest) == ThreeParts((n - a - b) as real, rest, a as real, p1, b as real, p2)
  {
    if n > 0 {
      TokenSumParts(n - 1, first, second, p1, p2, rest);
      var a := Min(first, n - 1);
      var b := Min(second, n - 1 - a);
      OneMore((n - 1 - a - b) as real, rest, a as real, p1, b as real, p2);
    }
  }

  lemma TokenSumTwoParts(n: nat, first: nat, p1: real, rest: real)
    ensures var a := Min(first, n);
      TokenSum(n, first, 0, p1, rest, rest) == TwoParts((n - a) as real, rest, a as real, p1)
  {
    TokenSumParts(n, first, 0, p1, rest, rest);
  }

  /** The bill is the sum over single tokens: of the input, the first tokens are cached, the next are cache writes, the
      rest are regular; of the output, the first are thinking tokens. Detail counters larger than the totals reach
      past the last token and charge nothing. */
  lemma BillIsPerToken(p: Prices, u: TokenUsage)
    requires ComputeCost(p, u).Some?
    ensures var input, output := p.input.Or(0.0), p.output.Or(0.0);
      ComputeCost(p, u).value == (
        TokenSum(u.input.Or(0), u.cached.Or(0), u.cacheWrite.Or(0), p.cached.Or(input), p.cacheWrite.Or(input), input)
        + TokenSum(u.output.Or(0), u.thinking.Or(0), 0, p.thinking.Or(output), output, output)) / 1_000_000.0
  {
    var input, output := p.input.Or(0.0), p.output.Or(0.0);
    TokenSumParts(u.input.Or(0), u.cached.Or(0), u.cacheWrite.Or(0), p.cached.Or(input), p.cacheWrite.Or(input), input);
    TokenSumTwoParts(u.output.Or(0), u.thinking.Or(0), p.thinking.Or(output), output);
  }

  // ---------- The estimate ----------

  const DEFAULT_OUTPUT_RESERVATION: nat := 8_192

  datatype ModelRow = ModelRow(id: string, prices: Prices, maxOutputTokens: Option<int>)
  datatype Target = Target(providerId: string, model: ModelRow)
  datatype Resolved = Single(providerId: string, modelId: string) | Route(targets: seq<Target>)
  datatype EstimateResult = Estimated(est: Estimate) | NotFound | Forbidden

  /** What the estimate depends on: the estimated input and the client's `max_tokens`. */
  datatype Ask = Ask(input: nat, maxTokens: Option<nat>)

  function OutputReservation(ask: Ask, model: ModelRow): nat {
    var capped := model.maxOutputTokens.Some? && model.maxOutputTokens.value > 0;
    match ask.maxTokens
    case Some(requested) => if capped then Min(requested, model.maxOutputTokens.value) else requested
    case None => if capped then model.maxOutputTokens.value else DEFAULT_OUTPUT_RESERVATION
  }

  /** The output reservation is the smaller of what the client asks for and a positive model maximum, or 8192 if there
      is neither. */
  lemma ReservationIsLeast(ask: Ask, model: ModelRow)
    ensures var r := OutputReservation(ask, model);
      && (ask.maxTokens.Some? ==> r <= ask.maxTokens.value)
      && (model.maxOutputTokens.Some? && model.maxOutputTokens.value > 0 ==> r <= model.maxOutputTokens.value)
      && (|| Some(r) == ask.maxTokens
          || (r > 0 && Some(r) == model.maxOutputTokens)
          || (r == 8_192 && ask.maxTokens.None? && !(model.maxOutputTokens.Some? && model.maxOutputTokens.value > 0)))
  {
  }

  function TokensFor(ask: Ask, model: ModelRow): nat {
    SatAdd(ask.input, OutputReservation(ask, model))
  }

  function CostFor(ask: Ask, model: ModelRow): Option<real> {
    ConservativeCost(model.prices, ask.input, OutputReservation(ask, model))
  }

  predicate ProviderAllowed(allowed: set<string>, provider: string) {
    allowed == {} || provider in allowed
  }

  /** The models a request may be served by. */
  ghost function Permitted(r: Resolved, snapshot: map<string, ModelRow>, allowed: set<string>): set<ModelRow> {
    match r
    case Single(provider, id) => if ProviderAllowed(allowed, provider) && id in snapshot then {snapshot[id]} else {}
    case Route(targets) => set t | t in targets && ProviderAllowed(allowed, t.providerId) :: t.model
  }

  /** The targets of the listed providers, in order. */
  function Listed(targets: seq<Target>, allowed: set<string>): seq<Target> {
    if targets == [] then []
    else (if targets[0].providerId in allowed then [targets[0]] else []) + Listed(targets[1..], allowed)
  }

  lemma {:induction false} Listing(targets: seq<Target>, allowed: set<string>)
    ensures forall t :: t in Listed(targets, allowed) <==> t in targets && t.providerId in allowed
  {
    if targets != [] {
      Listing(targets[1..], allowed);
      assert targets == [targets[0]] + targets[1..];
    }
  }

  /** A key without a provider list may use every provider of a route; a key with one, only those listed. */
  lemma PermittedByList(targets: seq<Target>, snapshot: map<string, ModelRow>, allowed: set<string>)
    ensures Permitted(Route(targets), snapshot, {}) == set t | t in targets :: t.model
    ensures allowed != {} ==>
      Permitted(Route(targets), snapshot, allowed) == Permitted(Route(Listed(targets, allowed)), snapshot, {})
  {
    Listing(targets, allowed);
  }

  /** Targets are cut from one snapshot, so a model id names one row. */
  predicate OneRowPerId(r: Resolved) {
    r.Route? ==> forall t, u :: t in r.targets && u in r.targets && t.model.id == u.model.id ==> t.model == u.model
  }

  /** The least estimate that covers every model: its tokens and cost are reached by some model (or are the bare
      input and zero when there is none), and the cost is known exactly when every model's cost is. */
  ghost predicate IsEstimate(est: Estimate, models: set<ModelRow>, ask: Ask) {
    && est.tokens >= ask.input
    && (forall m :: m in models ==> TokensFor(ask, m) <= est.tokens)
    && (est.tokens == ask.input || exists m :: m in models && TokensFor(ask, m) == est.tokens)
    && (est.cost.Some? <==> forall m :: m in models ==> CostFor(ask, m).Some?)
    && (est.cost.Some? ==>
          && est.cost.value >= 0.0
          && (forall m :: m in models ==> CostFor(ask, m).value <= est.cost.value)
          && (est.cost.value == 0.0 || exists m :: m in models && CostFor(ask, m).value == est.cost.value))
  }

  /** The model lacks a price that the ask uses, or has no input and no output price at all. */
  predicate LacksPrice(ask: Ask, model: ModelRow) {
    || (model.prices.input.None? && model.prices.output.None?)
    || (model.prices.input.None? && ask.input > 0)
    || (model.prices.output.None? && OutputReservation(ask, model) > 0)
  }

  /** An estimate's cost is unknown exactly when some permitted model lacks a price. */
  lemma UnknownCostMeansMissingPrice(est: Estimate, models: set<ModelRow>, ask: Ask)
    requires IsEstimate(est, models, ask)
    ensures est.cost.None? <==> exists m :: m in models && LacksPrice(ask, m)
  {
    forall m | m in models ensures CostFor(ask, m).None? <==> LacksPrice(ask, m) {
      ConservativeIsKnown(m.prices, ask.input, OutputReservation(ask, m));
    }
  }

  method CollectModels(r: Resolved, snapshot: map<string, ModelRow>, allowed: set<string>)
    returns (models: seq<ModelRow>, ok: bool)
    requires OneRowPerId(r)
    ensures forall m :: m in models <==> m in Permitted(r, snapshot, allowed)
    ensures r.Single? ==> (ok <==> ProviderAllowed(allowed, r.providerId))
    ensures r.Route? ==> (ok <==> models != [])
  {
    models, ok := [], true;
    match r
    case Single(provider, id) =>
      if !ProviderAllowed(allowed, provider) { ok := false; return; }
      if id in snapshot { models := [snapshot[id]]; }
    case Route(targets) =>
      var seen: set<string> := {};
      var i := 0;
      while i < |targets|
        invariant 0 <= i <= |targets|
        invariant forall m :: m in models <==>
          exists j :: 0 <= j < i && ProviderAllowed(allowed, targets[j].providerId) && targets[j].model == m
        invariant forall id :: id in seen <==> exists m :: m in models && m.id == id
      {
        var t := targets[i];
        if ProviderAllowed(allowed, t.providerId) && t.model.id !in seen {
          seen := seen + {t.model.id};
          models := models + [t.model];
        } else if ProviderAllowed(allowed, t.providerId) {
          var m :| m in models && m.id == t.model.id;
          var j :| 0 <= j < i && ProviderAllowed(allowed, targets[j].providerId) && targets[j].model == m;
          assert targets[j] in targets && t in targets;
        }
        i := i + 1;
      }
      if models == [] { ok := false; }
  }

  function AsSet(models: seq<ModelRow>): set<ModelRow> {
    set m | m in models
  }

  /** The loop over the candidate models. */
  method EstimateModels(models: seq<ModelRow>, ask: Ask) returns (est: Estimate)
    ensures IsEstimate(est, AsSet(models), ask)
  {
    var tokens, maxCost, costKnown := 0, 0.0, true;
    var i := 0;
    while i < |models|
      invariant 0 <= i <= |models|
      invariant forall j :: 0 <= j < i ==> TokensFor(ask, models[j]) <= tokens
      invariant tokens == 0 || exists j :: 0 <= j < i && TokensFor(ask, models[j]) == tokens
      invariant costKnown <==> forall j :: 0 <= j < i ==> CostFor(ask, models[j]).Some?
      invariant maxCost >= 0.0
      invariant forall j :: 0 <= j < i && CostFor(ask, models[j]).Some? ==> CostFor(ask, models[j]).value <= maxCost
      invariant maxCost == 0.0 || exists j :: 0 <= j < i && CostFor(ask, models[j]) == Some(maxCost)
    {
      tokens := Max(tokens, TokensFor(ask, models[i]));
      match CostFor(ask, models[i]) {
        case Some(cost) => maxCost := MaxReal(maxCost, cost);
        case None => costKnown := false;
      }
      i := i + 1;
    }
    est := Estimate(Max(tokens, ask.input), if costKnown then Some(maxCost) else None);
  }

  method EstimateRequest(resolved: Option<Resolved>, snapshot: map<string, ModelRow>, allowed: set<string>, ask: Ask)
    returns (r: EstimateResult)
    requires resolved.Some? ==> OneRowPerId(resolved.value)
    ensures r.NotFound? <==> resolved.None?
    ensures r.Estimated? ==> IsEstimate(r.est, Permitted(resolved.value, snapshot, allowed), ask)
    ensures r.Estimated? ==>
      (r.est.cost.None? <==> exists m :: m in Permitted(resolved.value, snapshot, allowed) && LacksPrice(ask, m))
    ensures resolved.Some? && resolved.value.Route? ==>
      (r.Forbidden? <==> Permitted(resolved.value, snapshot, allowed) == {})
    ensures resolved.Some? && resolved.value.Single? ==>
      (r.Forbidden? <==> !ProviderAllowed(allowed, resolved.value.providerId))
  {
    if resolved.None? { return NotFound; }
    var models, ok := CollectModels(resolved.value, snapshot, allowed);
    ghost var permitted := Permitted(resolved.value, snapshot, allowed);
    assert permitted == AsSet(models);
    assert models != [] ==> models[0] in permitted;
    if !ok { return Forbidden; }
    var est := EstimateModels(models, ask);
    UnknownCostMeansMissingPrice(est, permitted, ask);
    return Estimated(est);
  }
}
