/** The limits over whole runs, and the transparency of `check_current`. */
module LedgerLimits {
  import opened Common
  import opened Totals
  import opened Ledger
  import opened LedgerRuns
  import opened LedgerTheorems

  // ---------- Limits ----------

  /** Requests admitted and never cancelled within the minute that starts at `start`. */
  function InMinute(h: History, start: int): set<nat> {
    set id | id in h && !h[id].fate.Cancelled? && start <= h[id].res.at < start + 60 * SECOND
  }

  /** RPM: no minute, wherever it starts, holds more admitted requests than the limit. */
  lemma RequestsWithinLimit(w: World, lim: Limits, es: seq<Event>, start: int)
    requires Inv(w, lim) && ValidLimits(lim) && AllAllowed(w, lim, es)
    requires lim.rpm.Some? && lim.rpm.value > 0
    ensures |InMinute(Run(w, lim, es).history, start)| <= lim.rpm.value
  {
    RunKeeps(w, lim, es);
    var h := Run(w, lim, es).history;
    assert MeterWithin(h, lim, Requests(start));
    assert forall id :: id in h ==> Kept(h[id], Requests(start)) == if id in InMinute(h, start) then 1.0 else 0.0;
    TotalCounts(KeptMap(h, Requests(start)), InMinute(h, start));
  }

  lemma HonestTokens(v: World, lim: Limits, start: int)
    requires Within(v.history, lim) && TokenRoom(v, lim) && TokensHonest(v.history) && ValidLimits(lim)
    requires lim.tpm.Some? && lim.tpm.value > 0
    ensures BilledTotal(v.history, Tokens(start)) <= lim.tpm.value as real
    ensures QueueTokens(v.ledger.minute) <= lim.tpm.value
  {
    assert MeterWithin(v.history, lim, Tokens(start));
    RoomMeansFit(v, lim);
    assert BilledMap(v.history, Tokens(start)) == KeptMap(v.history, Tokens(start));
  }

  /** TPM: if no settlement used more tokens than it reserved, no minute is charged more than the limit, and the
      deque's own sum stays far below the point where it would wrap. */
  lemma TokensWithinLimit(w: World, lim: Limits, es: seq<Event>, start: int)
    requires Inv(w, lim) && ValidLimits(lim) && AllAllowed(w, lim, es)
    requires lim.tpm.Some? && lim.tpm.value > 0
    requires TokensHonest(Run(w, lim, es).history)
    ensures BilledTotal(Run(w, lim, es).history, Tokens(start)) <= lim.tpm.value as real
    ensures QueueTokens(Run(w, lim, es).ledger.minute) <= lim.tpm.value
  {
    RunKeeps(w, lim, es);
    HonestTokens(Run(w, lim, es), lim, start);
  }

  /** What is charged splits into what the reservations covered and the excess over them. */
  lemma BilledSplits(h: History, m: Meter)
    ensures BilledTotal(h, m) == KeptTotal(h, m) + ExcessTotal(h, m)
  {
    TotalSplit(BilledMap(h, m), KeptMap(h, m), ExcessMap(h, m));
  }

  /** Budgets, with no premise on the settlements: a day or month is charged at most its budget plus the amount by
      which settlements exceeded their own reservations (all of it, for a reservation of unknown cost). Requests
      that settle after their period has ended are included. */
  lemma SpendWithinBudget(w: World, lim: Limits, es: seq<Event>, m: Meter)
    requires Inv(w, lim) && ValidLimits(lim) && AllAllowed(w, lim, es)
    requires (m.Daily? || m.Monthly?) && LimitOf(lim, m).Some?
    ensures var h := Run(w, lim, es).history;
      BilledTotal(h, m) <= LimitOf(lim, m).value + ExcessTotal(h, m)
  {
    RunKeeps(w, lim, es);
    var h := Run(w, lim, es).history;
    assert MeterWithin(h, lim, m);
    BilledSplits(h, m);
  }

  /** Every estimate is known and no settlement costs more than its estimate. */
  predicate CostsHonest(h: History) {
    forall id :: id in h ==>
      h[id].res.cost.Some? && (h[id].fate.Paid? ==> CostOr0(h[id].fate.cost) <= h[id].res.cost.value)
  }

  lemma NoExcess(w: World, m: Meter)
    requires RecordsSane(w) && CostsHonest(w.history) && (m.Daily? || m.Monthly?)
    ensures ExcessTotal(w.history, m) <= 0.0
  {
    TotalMono(ExcessMap(w.history, m), map[]);
  }

  lemma SpendNeverExceedsBudget(w: World, lim: Limits, es: seq<Event>, m: Meter)
    requires Inv(w, lim) && ValidLimits(lim) && AllAllowed(w, lim, es)
    requires (m.Daily? || m.Monthly?) && LimitOf(lim, m).Some?
    requires CostsHonest(Run(w, lim, es).history)
    ensures BilledTotal(Run(w, lim, es).history, m) <= LimitOf(lim, m).value
  {
    var h := Run(w, lim, es).history;
    SpendWithinBudget(w, lim, es, m);
    assert RecordsSane(Run(w, lim, es)) by { RunKeeps(w, lim, es); }
    NoExcess(Run(w, lim, es), m);
  }

  // ---------- Rejections ----------

  // These verdicts need only a sound ledger, so they also cover a key whose limits have just been lowered.

  /** A budget verdict is exact: a reservation of known cost that reaches the budget checks is turned away precisely
      when what the day (or month) has been charged, plus the new cost, exceeds the budget. */
  lemma BudgetVerdictIsExact(w: World, lim: Limits, e: Event)
    requires Sound(w) && Allowed(w, e) && e.Reserve? && e.est.cost.Some?
    ensures var v := LedgerStep(w.ledger, lim, e).1;
      var day, month := LimitOf(lim, Daily(e.wall)), LimitOf(lim, Monthly(e.wall.MonthKey()));
      var overDay := day.Some? && BilledTotal(w.history, Daily(e.wall)) + e.est.cost.value > day.value;
      var overMonth :=
        month.Some? && BilledTotal(w.history, Monthly(e.wall.MonthKey())) + e.est.cost.value > month.value;
      && (v == OverDaily ==> overDay)
      && (v == OverMonthly ==> overMonth && !overDay)
      && (v == Admitted ==> !overDay && !overMonth)
  {
    var t := Ticked(w, e.wall, e.now);
    TickSound(w, e.wall, e.now);
    CountsSpend(t, Daily(e.wall));
    CountsSpend(t, Monthly(e.wall.MonthKey()));
  }

  /** What one deque entry adds to a meter of requests or tokens. */
  function Weight(e: MinuteUse, m: Meter): nat {
    if m.Requests? then 1 else e.tokens
  }

  /** The deque's entries of the last minute. */
  function YoungAmount(q: seq<MinuteUse>, now: nat, m: Meter): nat {
    if q == [] then 0
    else YoungAmount(q[..|q| - 1], now, m) + if Young(q[|q| - 1].at, now) then Weight(q[|q| - 1], m) else 0
  }

  /** The entries past their minute that are still in the deque, behind a younger front. */
  function StaleAmount(q: seq<MinuteUse>, now: nat, m: Meter): nat {
    if q == [] then 0
    else StaleAmount(q[..|q| - 1], now, m) + if Young(q[|q| - 1].at, now) then 0 else Weight(q[|q| - 1], m)
  }

  lemma {:induction false} YoungAndStale(q: seq<MinuteUse>, now: nat, m: Meter)
    ensures (YoungAmount(q, now, m) + StaleAmount(q, now, m)) as real == QueueAmount(q, m)
  {
    if q != [] { YoungAndStale(q[..|q| - 1], now, m); }
  }

  /** Where the minute that ends now begins. */
  function LastMinute(now: nat): int {
    now - MINUTE_WINDOW + 1
  }

  predicate IsLastMinute(m: Meter, now: nat) {
    m == Requests(LastMinute(now)) || m == Tokens(LastMinute(now))
  }

  lemma BilledIfYoung(r: Record, now: nat, m: Meter)
    requires r.res.at <= now && r.fate.Paid? && IsLastMinute(m, now)
    ensures Billed(r, m) == if Young(r.res.at, now) then Weight(MinuteUse(r.res.at, r.fate.tokens), m) as real else 0.0
  {
  }

  lemma {:induction false} OrderCounts(q: seq<MinuteUse>, order: seq<nat>, h: History, now: nat, m: Meter)
    requires Distinct(order) && Tagged(q, order, h) && IsLastMinute(m, now)
    requires forall id :: id in h ==> h[id].res.at <= now
    ensures Total(OrderMap(order, h, m)) == YoungAmount(q, now, m) as real
    decreases |order|
  {
    if order == [] {
      assert OrderMap(order, h, m) == map[];
    } else {
      var n := |order| - 1;
      TaggedPrefix(q, order, h, n);
      OrderCounts(q[..n], order[..n], h, now, m);
      assert order == order[..n] + [order[n]];
      OrderMapGrows(order[..n], order[n], h, m);
      BilledIfYoung(h[order[n]], now, m);
      assert q[n] == MinuteUse(h[order[n]].res.at, h[order[n]].fate.tokens);
    }
  }

  lemma MinuteOnce(w: World, id: nat, m: Meter)
    requires Sound(w) && id in w.history && IsLastMinute(m, w.clock)
    ensures Billed(w.history[id], m) == At(OpenMap(w.ledger, w.clock, m), id) + At(OrderMap(w.order, w.history, m), id)
  {
    var r := w.history[id];
    assert Covers(m, r.res) <==> Young(r.res.at, w.clock);
    if id in w.order {
      var i :| 0 <= i < |w.order| && w.order[i] == id;
      assert r.fate.Paid?;
    }
  }

  /** What a reading of requests or tokens is made of: what is really charged to the last minute, plus the stale entries
      that the front-only pruning has left in the deque. */
  lemma MinuteReading(w: World, m: Meter)
    requires Sound(w) && IsLastMinute(m, w.clock)
    ensures Counted(w, m) == BilledTotal(w.history, m) + StaleAmount(w.ledger.minute, w.clock, m) as real
  {
    var h := w.history;
    var open, queued := OpenMap(w.ledger, w.clock, m), OrderMap(w.order, h, m);
    OrderCounts(w.ledger.minute, w.order, h, w.clock, m);
    YoungAndStale(w.ledger.minute, w.clock, m);
    forall id | id in h ensures BilledMap(h, m)[id] == At(open, id) + At(queued, id) {
      MinuteOnce(w, id, m);
    }
    TotalSplit(BilledMap(h, m), open, queued);
  }

  lemma RequestReading(w: World)
    requires Sound(w)
    ensures var m := Requests(LastMinute(w.clock));
      Counted(w, m) == (|InMinute(w.history, m.start)| + StaleAmount(w.ledger.minute, w.clock, m)) as real
  {
    var m := Requests(LastMinute(w.clock));
    MinuteReading(w, m);
    TotalCounts(BilledMap(w.history, m), InMinute(w.history, m.start));
  }

  /** A reservation is turned away for its request rate exactly when the requests admitted in the last minute, plus the
      stale entries still in the pruned deque, leave no room under the limit. */
  lemma RpmVerdictIsExact(w: World, lim: Limits, e: Event)
    requires Sound(w) && ValidLimits(lim) && Allowed(w, e) && e.Reserve? && lim.rpm.Some? && lim.rpm.value > 0
    ensures var m := Requests(LastMinute(e.now));
      LedgerStep(w.ledger, lim, e).1 == OverRequests <==>
      |InMinute(w.history, m.start)| + StaleAmount(Pruned(w.ledger.minute, e.now), e.now, m) + 1 > lim.rpm.value
  {
    var t := Ticked(w, e.wall, e.now);
    TickSound(w, e.wall, e.now);
    RequestReading(t);
    Unsaturated(|t.ledger.minute|, YoungOnes(t.ledger.active, e.now), 1.0, lim.rpm.value);
  }

  lemma OverTokensWhen(lim: Limits, est: Estimate, u: Usage)
    requires lim.tpm.Some? && lim.tpm.value > 0
    ensures var v := ReserveVerdict(lim, est, u);
      v == OverTokens <==> (v != OverRequests && Saturated(u.tokens + est.tokens as real) > lim.tpm.value as real)
  {
  }

  /** The token check compares exact amounts, less what the deque's sum has lost by wrapping. */
  lemma TokenCheck(t: World, lim: Limits, tokens: nat)
    requires ValidLimits(lim) && lim.tpm.Some? && lim.tpm.value > 0
    ensures Saturated(Reading(t.ledger, t.wall, t.clock).tokens + tokens as real) > lim.tpm.value as real <==>
      Counted(t, Tokens(LastMinute(t.clock))) - Lost(t.ledger.minute) as real + tokens as real > lim.tpm.value as real
  {
    var read := QueueTokens(t.ledger.minute) % (U64_MAX + 1);
    Unsaturated(read, YoungTokens(t.ledger.active, t.clock), tokens as real, lim.tpm.value);
  }

  /** The tokens that count against a reservation: those charged to the last minute, those of stale entries, its own. */
  ghost function TokensAsked(w: World, e: Event): real
    requires e.Reserve?
  {
    var m := Tokens(LastMinute(e.now));
    BilledTotal(w.history, m) + StaleAmount(Pruned(w.ledger.minute, e.now), e.now, m) as real + e.est.tokens as real
  }

  /** Past the request check, a reservation is turned away for its tokens exactly when the tokens that count against it,
      less what the deque's sum has lost by wrapping, exceed the limit. */
  lemma TpmVerdictIsExact(w: World, lim: Limits, e: Event)
    requires Sound(w) && ValidLimits(lim) && Allowed(w, e) && e.Reserve? && lim.tpm.Some? && lim.tpm.value > 0
    ensures var v := LedgerStep(w.ledger, lim, e).1;
      v == OverTokens <==>
      (v != OverRequests && TokensAsked(w, e) - Lost(Pruned(w.ledger.minute, e.now)) as real > lim.tpm.value as real)
  {
    var t := Ticked(w, e.wall, e.now);
    TickSound(w, e.wall, e.now);
    MinuteReading(t, Tokens(LastMinute(e.now)));
    TokenCheck(t, lim, e.est.tokens);
    OverTokensWhen(lim, e.est, Reading(t.ledger, e.wall, e.now));
  }

  /** While the deque's sum fits in a `u64`, nothing is lost and the verdict is on the full amount. */
  lemma TpmVerdictUnwrapped(w: World, lim: Limits, e: Event)
    requires Sound(w) && ValidLimits(lim) && Allowed(w, e) && e.Reserve? && lim.tpm.Some? && lim.tpm.value > 0
    requires SumFits(Pruned(w.ledger.minute, e.now))
    ensures var v := LedgerStep(w.ledger, lim, e).1;
      v == OverTokens <==> (v != OverRequests && TokensAsked(w, e) > lim.tpm.value as real)
  {
    TpmVerdictIsExact(w, lim, e);
  }

  lemma LostIsAsked(w: World, e: Event)
    requires Sound(w) && Allowed(w, e) && e.Reserve?
    ensures TokensAsked(w, e) >= Lost(Pruned(w.ledger.minute, e.now)) as real
  {
    var t := Ticked(w, e.wall, e.now);
    TickSound(w, e.wall, e.now);
    MinuteReading(t, Tokens(LastMinute(e.now)));
    TotalNonnegative(YoungTokens(t.ledger.active, e.now));
  }

  lemma Slips(v: Verdict, asked: real, lost: nat, limit: nat)
    requires v == OverTokens <==> (v != OverRequests && asked - lost as real > limit as real)
    requires v != OverRequests && asked >= lost as real && (lost == 0 || lost > limit)
    ensures asked > limit as real && v != OverTokens <==> lost > 0 && asked - lost as real <= limit as real
  {
  }

  /** A reservation slips past the token limit exactly when the sum has wrapped and what it still shows, with the open
      reservations and the estimate, is within the limit. */
  lemma SlipsPastWhenWrapped(w: World, lim: Limits, e: Event, v: Verdict)
    requires Sound(w) && ValidLimits(lim) && Allowed(w, e) && e.Reserve? && lim.tpm.Some? && lim.tpm.value > 0
    requires v == LedgerStep(w.ledger, lim, e).1 && v != OverRequests
    ensures var lost := Lost(Pruned(w.ledger.minute, e.now));
      TokensAsked(w, e) > lim.tpm.value as real && v != OverTokens <==>
      lost > 0 && TokensAsked(w, e) - lost as real <= lim.tpm.value as real
  {
    TpmVerdictIsExact(w, lim, e);
    LostIsAsked(w, e);
    Slips(v, TokensAsked(w, e), Lost(Pruned(w.ledger.minute, e.now)), lim.tpm.value);
  }

  // ---------- check_current ----------

  /** Times of events never step back, starting from `wall` and `now`. */
  predicate Ordered(es: seq<Event>, wall: Date, now: nat) {
    es == [] ||
    if es[0].Cancel? then Ordered(es[1..], wall, now)
    else DateLe(wall, es[0].wall) && now <= es[0].now && Ordered(es[1..], es[0].wall, es[0].now)
  }

  ghost function Verdicts(s: State, lim: Limits, es: seq<Event>): seq<Verdict>
    decreases |es|
  {
    if es == [] then [] else [LedgerStep(s, lim, es[0]).1] + Verdicts(LedgerStep(s, lim, es[0]).0, lim, es[1..])
  }

  ghost function LedgerRun(s: State, lim: Limits, es: seq<Event>): State
    decreases |es|
  {
    if es == [] then s else LedgerRun(LedgerStep(s, lim, es[0]).0, lim, es[1..])
  }

  /** Some event reads the clock. */
  predicate Timed(es: seq<Event>) {
    exists i :: 0 <= i < |es| && !es[i].Cancel?
  }

  predicate MonthLe(a: Month, b: Month) {
    a.year < b.year || (a.year == b.year && a.month <= b.month)
  }

  /** The periods held by the ledger are not in the future. */
  predicate Past(s: State, wall: Date) {
    && (s.dailyDay.Some? ==> DateLe(s.dailyDay.value, wall))
    && (s.monthlyKey.Some? ==> MonthLe(s.monthlyKey.value, wall.MonthKey()))
  }

  lemma {:induction false} PruneTwice(q: seq<MinuteUse>, n1: nat, n2: nat)
    requires n1 <= n2
    ensures Pruned(Pruned(q, n1), n2) == Pruned(q, n2)
  {
    if q != [] && !Young(q[0].at, n1) { PruneTwice(q[1..], n1, n2); }
  }

  /** Advancing on the way changes nothing that a later advance would see. */
  lemma AdvanceTwice(s: State, w1: Date, n1: nat, w2: Date, n2: nat)
    requires Past(s, w1) && DateLe(w1, w2) && n1 <= n2
    ensures Advanced(Advanced(s, w1, n1), w2, n2) == Advanced(s, w2, n2)
  {
    PruneTwice(s.minute, n1, n2);
  }

  /** Two ledgers that no timed operation at or after (`wall`, `now`) can tell apart. */
  predicate Alike(s: State, t: State, wall: Date, now: nat) {
    Past(s, wall) && Past(t, wall) && Advanced(s, wall, now) == Advanced(t, wall, now)
  }

  /** Cancelling the same id on both sides. */
  lemma AlikeCancel(s: State, t: State, id: nat, wall: Date, now: nat)
    requires Alike(s, t, wall, now)
    ensures Alike(s.(active := s.active - {id}), t.(active := t.active - {id}), wall, now)
  {
    assert Advanced(s, wall, now).active == s.active && Advanced(t, wall, now).active == t.active;
    assert Advanced(s.(active := s.active - {id}), wall, now) == Advanced(s, wall, now).(active := s.active - {id});
    assert Advanced(t.(active := t.active - {id}), wall, now) == Advanced(t, wall, now).(active := t.active - {id});
  }

  lemma AlikeStep(s: State, t: State, lim: Limits, e: Event, wall: Date, now: nat)
    requires Alike(s, t, wall, now) && !e.Cancel? && DateLe(wall, e.wall) && now <= e.now
    ensures LedgerStep(s, lim, e) == LedgerStep(t, lim, e)
  {
    AdvanceTwice(s, wall, now, e.wall, e.now);
    AdvanceTwice(t, wall, now, e.wall, e.now);
  }

  lemma {:induction false} AlikeRuns(s: State, t: State, lim: Limits, es: seq<Event>, wall: Date, now: nat)
    requires Alike(s, t, wall, now) && Ordered(es, wall, now)
    ensures Verdicts(s, lim, es) == Verdicts(t, lim, es)
    ensures Timed(es) ==> LedgerRun(s, lim, es) == LedgerRun(t, lim, es)
    decreases |es|
  {
    if es == [] {
    } else if es[0].Cancel? {
      AlikeCancel(s, t, es[0].id, wall, now);
      assert Timed(es) ==> Timed(es[1..]) by {
        if Timed(es) {
          var i :| 0 <= i < |es| && !es[i].Cancel?;
          assert !es[1..][i - 1].Cancel?;
        }
      }
      AlikeRuns(LedgerStep(s, lim, es[0]).0, LedgerStep(t, lim, es[0]).0, lim, es[1..], wall, now);
    } else {
      AlikeStep(s, t, lim, es[0], wall, now);
    }
  }

  lemma PastStep(s: State, lim: Limits, e: Event, wall: Date)
    requires Past(s, wall) && (!e.Cancel? ==> DateLe(wall, e.wall))
    ensures Past(LedgerStep(s, lim, e).0, if e.Cancel? then wall else e.wall)
  {
  }

  /** A check followed by more events: they see what they would have seen without it. */
  lemma CheckThenRun(s: State, lim: Limits, check: Event, after: seq<Event>, wall: Date)
    requires check.Check? && Past(s, wall) && DateLe(wall, check.wall) && Ordered(after, check.wall, check.now)
    ensures var t := LedgerStep(s, lim, check).0;
      && Verdicts(t, lim, after) == Verdicts(s, lim, after)
      && (Timed(after) ==> LedgerRun(t, lim, after) == LedgerRun(s, lim, after))
  {
    AdvanceTwice(s, check.wall, check.now, check.wall, check.now);
    PastStep(s, lim, check, wall);
    AlikeRuns(LedgerStep(s, lim, check).0, s, lim, after, check.wall, check.now);
  }

  /** The events with the one at position `i` left out. */
  function Without(vs: seq<Verdict>, i: nat): seq<Verdict>
    requires i < |vs|
  {
    vs[..i] + vs[i + 1..]
  }

  lemma WithoutFirst(v: Verdict, vs: seq<Verdict>, i: nat)
    requires i < |vs|
    ensures Without([v] + vs, i + 1) == [v] + Without(vs, i)
  {
  }

  lemma {:induction false} VerdictsLength(s: State, lim: Limits, es: seq<Event>)
    ensures |Verdicts(s, lim, es)| == |es|
    decreases |es|
  {
    if es != [] { VerdictsLength(LedgerStep(s, lim, es[0]).0, lim, es[1..]); }
  }

  lemma {:induction false} CheckFirst(s: State, lim: Limits, check: Event, after: seq<Event>, wall: Date, now: nat)
    requires check.Check? && Past(s, wall) && Ordered([check] + after, wall, now)
    ensures |Verdicts(s, lim, [check] + after)| > 0
    ensures Without(Verdicts(s, lim, [check] + after), 0) == Verdicts(s, lim, after)
    ensures Timed(after) ==> LedgerRun(s, lim, [check] + after) == LedgerRun(s, lim, after)
  {
    var es, t := [check] + after, LedgerStep(s, lim, check).0;
    assert es[0] == check && es[1..] == after;
    CheckThenRun(s, lim, check, after, wall);
    assert Verdicts(s, lim, es) == [LedgerStep(s, lim, check).1] + Verdicts(t, lim, after);
  }

  /** `check_current` can be called anywhere in a time-ordered run: every other verdict stays the same, and so does
      the ledger as soon as one later operation has read the clock. */
  lemma {:induction false} CheckIsTransparent(
    s: State, lim: Limits, before: seq<Event>, check: Event, after: seq<Event>, wall: Date, now: nat)
    requires check.Check? && Past(s, wall) && Ordered(before + [check] + after, wall, now)
    ensures |Verdicts(s, lim, before + [check] + after)| == |before| + 1 + |after|
    ensures Without(Verdicts(s, lim, before + [check] + after), |before|) == Verdicts(s, lim, before + after)
    ensures Timed(after) ==> LedgerRun(s, lim, before + [check] + after) == LedgerRun(s, lim, before + after)
    decreases |before|
  {
    var es := before + [check] + after;
    VerdictsLength(s, lim, es);
    if before == [] {
      assert es == [check] + after && before + after == after;
      CheckFirst(s, lim, check, after, wall, now);
    } else {
      var e := before[0];
      var t := LedgerStep(s, lim, e).0;
      assert es[0] == e && es[1..] == before[1..] + [check] + after;
      assert (before + after)[0] == e && (before + after)[1..] == before[1..] + after;
      PastStep(s, lim, e, wall);
      CheckIsTransparent(t, lim, before[1..], check, after,
        if e.Cancel? then wall else e.wall, if e.Cancel? then now else e.now);
      WithoutFirst(LedgerStep(s, lim, e).1, Verdicts(t, lim, es[1..]), |before| - 1);
    }
  }

  lemma WholeCounter(start: nat, m: map<nat, real>, total: int) returns (n: int)
    requires Total(m) == total as real
    ensures SaturatedTotal(start, m) == n as real
  {
    n := if start + total > U64_MAX then U64_MAX else start + total;
  }

  lemma ReadingWhole(s: State, wall: Date, now: nat) returns (requests: int, tokens: int)
    ensures Reading(s, wall, now).requests == requests as real && Reading(s, wall, now).tokens == tokens as real
  {
    var ones := TotalWhole(YoungOnes(s.active, now),
      map id | id in s.active :: if Young(s.active[id].at, now) then 1 else 0);
    var used := TotalWhole(YoungTokens(s.active, now),
      map id | id in s.active :: if Young(s.active[id].at, now) then s.active[id].tokens else 0);
    requests := WholeCounter(|s.minute|, YoungOnes(s.active, now), ones);
    tokens := WholeCounter(QueueTokens(s.minute) % (U64_MAX + 1), YoungTokens(s.active, now), used);
  }

  ghost predicate RoomForSome(lim: Limits, u: Usage) {
    exists cost: real :: cost > 0.0 && ReserveVerdict(lim, Estimate(1, Some(cost)), u) == Admitted
  }

  lemma RoomWhenChecked(lim: Limits, u: Usage, requests: int, tokens: int)
    requires ValidLimits(lim) && u.requests == requests as real && u.tokens == tokens as real
    ensures CheckVerdict(lim, u) == Admitted ==> RoomForSome(lim, u)
  {
    if CheckVerdict(lim, u) == Admitted {
      var daily := if lim.daily.Some? && lim.daily.value > 0.0 then lim.daily.value - u.daily else 1.0;
      var monthly := if lim.monthly.Some? && lim.monthly.value > 0.0 then lim.monthly.value - u.monthly else 1.0;
      var est := Estimate(1, Some(MinReal(daily, monthly)));
      assert lim.rpm.Some? && lim.rpm.value > 0 ==> requests + 1 <= lim.rpm.value;
      assert lim.tpm.Some? && lim.tpm.value > 0 ==> tokens + 1 <= lim.tpm.value;
      assert ReserveVerdict(lim, est, u) == Admitted;
    }
  }

  /** `check_current` answers whether there is room for anything at all: it accepts exactly when a reservation of
      one token and some positive cost would be accepted in its place, and when it rejects, so does every
      reservation with at least one token and a positive known cost. */
  lemma CheckMeansRoom(s: State, lim: Limits, wall: Date, now: nat)
    requires ValidLimits(lim)
    ensures var u := Reading(s, wall, now);
      && (CheckVerdict(lim, u) == Admitted <==> RoomForSome(lim, u))
      && (CheckVerdict(lim, u) != Admitted ==> forall est: Estimate ::
            est.tokens >= 1 && est.cost.Some? && est.cost.value > 0.0 ==> ReserveVerdict(lim, est, u) != Admitted)
  {
    var requests, tokens := ReadingWhole(s, wall, now);
    RoomWhenChecked(lim, Reading(s, wall, now), requests, tokens);
  }
}
