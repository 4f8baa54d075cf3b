/** What every run of the admission ledger keeps, and what follows for its limits. */
module LedgerTheorems {
  import opened Common
  import opened Totals
  import opened Ledger
  import opened LedgerRuns

  // ---------- Advancing the clock ----------

  lemma TaggedSuffix(q: seq<MinuteUse>, order: seq<nat>, h: History, n: nat)
    requires Distinct(order) && Tagged(q, order, h) && n <= |order|
    ensures Distinct(order[n..]) && Tagged(q[n..], order[n..], h)
  {
    forall i | 0 <= i < |q| - n ensures q[n..][i] == q[i + n] && order[n..][i] == order[i + n] {
    }
  }

  lemma StillQueued(w: World, now: nat, n: nat, id: nat)
    requires QueueComplete(w) && w.clock <= now && n <= |w.order|
    requires forall i :: 0 <= i < n ==> !Young(w.ledger.minute[i].at, now)
    requires id in w.history && w.history[id].fate.Paid? && Young(w.history[id].res.at, now)
    ensures id in w.order[n..]
  {
    var i :| 0 <= i < |w.order| && w.order[i] == id;
    assert w.ledger.minute[i].at == w.history[id].res.at;
    assert w.order[n..][i - n] == id;
  }

  lemma TickQueue(w: World, wall: Date, now: nat)
    requires QueueComplete(w) && w.clock <= now
    ensures QueueComplete(Ticked(w, wall, now))
  {
    var t := Ticked(w, wall, now);
    var n := PrunedIsSuffix(w.ledger.minute, now);
    assert t.order == w.order[n..] && t.ledger.minute == w.ledger.minute[n..];
    TaggedSuffix(w.ledger.minute, w.order, w.history, n);
    forall id | id in t.history && t.history[id].fate.Paid? && Young(t.history[id].res.at, now)
      ensures id in t.order
    {
      StillQueued(w, now, n, id);
    }
  }

  /** In a period that has only just begun nothing has been paid. */
  lemma NothingPaid(h: History, m: Meter)
    requires forall id :: id in h ==> !Covers(m, h[id].res)
    ensures PaidTotal(h, m) == 0.0
  {
    TotalSplit(PaidMap(h, m), map[], map[]);
  }

  lemma TickSpend(w: World, wall: Date, now: nat)
    requires RecordsSane(w) && SpendComplete(w) && DateLe(w.wall, wall)
    ensures SpendComplete(Ticked(w, wall, now))
  {
    var h := w.history;
    if w.ledger.dailyDay != Some(wall) { NothingPaid(h, Daily(wall)); }
    if w.ledger.monthlyKey != Some(wall.MonthKey()) { NothingPaid(h, Monthly(wall.MonthKey())); }
  }

  lemma TickSound(w: World, wall: Date, now: nat)
    requires Sound(w) && DateLe(w.wall, wall) && w.clock <= now
    ensures Sound(Ticked(w, wall, now))
  {
    TickQueue(w, wall, now);
    TickSpend(w, wall, now);
  }

  lemma {:induction false} QueueTokensSplit(a: seq<MinuteUse>, b: seq<MinuteUse>)
    ensures QueueTokens(a + b) == QueueTokens(a) + QueueTokens(b)
  {
    if b == [] {
      assert a + b == a;
    } else {
      assert (a + b)[..|a + b| - 1] == a + b[..|b| - 1];
      QueueTokensSplit(a, b[..|b| - 1]);
    }
  }

  lemma TickRoom(w: World, lim: Limits, wall: Date, now: nat)
    requires TokenRoom(w, lim) && w.clock <= now
    ensures TokenRoom(Ticked(w, wall, now), lim)
  {
    var q := w.ledger.minute;
    var n := PrunedIsSuffix(q, now);
    assert q == q[..n] + q[n..];
    QueueTokensSplit(q[..n], q[n..]);
    TotalMono(YoungTokens(w.ledger.active, now), YoungTokens(w.ledger.active, w.clock));
  }

  // ---------- The ledger counts everything that a present meter charges ----------

  /** The meters a reservation made now would be charged to. */
  predicate Present(m: Meter, wall: Date, now: nat) {
    match m
    case Requests(start) => start <= now < start + MINUTE_WINDOW
    case Tokens(start) => start <= now < start + MINUTE_WINDOW
    case Daily(day) => day == wall
    case Monthly(month) => month == wall.MonthKey()
  }

  ghost function QueueAmount(q: seq<MinuteUse>, m: Meter): real {
    if m.Requests? then |q| as real else QueueTokens(q) as real
  }

  /** The ledger's reading for a meter, before `u64` wrap-around and saturation. */
  ghost function Counted(w: World, m: Meter): real {
    var s := w.ledger;
    match m
    case Requests(_) => |s.minute| as real + Total(YoungOnes(s.active, w.clock))
    case Tokens(_) => QueueTokens(s.minute) as real + OpenTokens(s, w.clock)
    case Daily(_) => s.dailySpend + Total(DayCosts(s.active, w.wall))
    case Monthly(_) => s.monthlySpend + Total(MonthCosts(s.active, w.wall.MonthKey()))
  }

  ghost function OrderMap(order: seq<nat>, h: History, m: Meter): map<nat, real> {
    map id | id in order && id in h :: Billed(h[id], m)
  }

  lemma OrderMapGrows(order: seq<nat>, id: nat, h: History, m: Meter)
    requires id !in order && id in h
    ensures Total(OrderMap(order + [id], h, m)) == Billed(h[id], m) + Total(OrderMap(order, h, m))
  {
    assert OrderMap(order + [id], h, m) == OrderMap(order, h, m)[id := Billed(h[id], m)];
    TotalInsert(OrderMap(order, h, m), id, Billed(h[id], m));
  }

  lemma TaggedPrefix(q: seq<MinuteUse>, order: seq<nat>, h: History, n: nat)
    requires Distinct(order) && Tagged(q, order, h) && n < |order|
    ensures Distinct(order[..n]) && Tagged(q[..n], order[..n], h)
    ensures order[n] !in order[..n] && order[n] in h && h[order[n]].fate.Paid?
  {
  }

  lemma {:induction false} OrderTotal(q: seq<MinuteUse>, order: seq<nat>, h: History, m: Meter)
    requires Distinct(order) && Tagged(q, order, h) && (m.Requests? || m.Tokens?)
    ensures Total(OrderMap(order, h, m)) <= QueueAmount(q, m)
    decreases |order|
  {
    if order == [] {
      assert OrderMap(order, h, m) == map[];
    } else {
      var n := |order| - 1;
      var id := order[n];
      TaggedPrefix(q, order, h, n);
      OrderTotal(q[..n], order[..n], h, m);
      assert order == order[..n] + [id];
      OrderMapGrows(order[..n], id, h, m);
    }
  }

  ghost function OpenMap(s: State, now: nat, m: Meter): map<nat, real> {
    if m.Requests? then YoungOnes(s.active, now) else YoungTokens(s.active, now)
  }

  /** A charged request of the present minute is open or has its own deque entry. */
  lemma CountedOnce(w: World, m: Meter, id: nat)
    requires ActiveMatches(w) && QueueComplete(w) && (m.Requests? || m.Tokens?) && Present(m, w.wall, w.clock)
    requires id in w.history
    ensures Billed(w.history[id], m) <= At(OpenMap(w.ledger, w.clock, m), id) + At(OrderMap(w.order, w.history, m), id)
  {
    var r := w.history[id];
    if Covers(m, r.res) {
      assert Young(r.res.at, w.clock);
      if r.fate.Paid? { assert id in w.order; }
    }
  }

  lemma MinuteMapsNonnegative(w: World, m: Meter)
    requires m.Requests? || m.Tokens?
    ensures Nonnegative(OpenMap(w.ledger, w.clock, m)) && Nonnegative(OrderMap(w.order, w.history, m))
  {
  }

  lemma BilledBelowMinuteMaps(w: World, m: Meter)
    requires ActiveMatches(w) && QueueComplete(w) && (m.Requests? || m.Tokens?) && Present(m, w.wall, w.clock)
    ensures BilledTotal(w.history, m) <= Total(OpenMap(w.ledger, w.clock, m)) + Total(OrderMap(w.order, w.history, m))
  {
    var open, queued := OpenMap(w.ledger, w.clock, m), OrderMap(w.order, w.history, m);
    MinuteMapsNonnegative(w, m);
    forall id | id in w.history ensures BilledMap(w.history, m)[id] <= At(open, id) + At(queued, id) {
      CountedOnce(w, m, id);
    }
    TotalCover(BilledMap(w.history, m), open, queued);
  }

  lemma CountsMinute(w: World, m: Meter)
    requires Sound(w) && (m.Requests? || m.Tokens?) && Present(m, w.wall, w.clock)
    ensures BilledTotal(w.history, m) <= Counted(w, m)
  {
    BilledBelowMinuteMaps(w, m);
    OrderTotal(w.ledger.minute, w.order, w.history, m);
  }

  /** The budget readings are exact. */
  lemma CountsSpend(w: World, m: Meter)
    requires Sound(w) && (m.Daily? || m.Monthly?) && Present(m, w.wall, w.clock)
    requires w.ledger.dailyDay.Some? && w.ledger.monthlyKey.Some?
    ensures BilledTotal(w.history, m) == Counted(w, m)
  {
    var h, s := w.history, w.ledger;
    var open := if m.Daily? then DayCosts(s.active, w.wall) else MonthCosts(s.active, w.wall.MonthKey());
    TotalSplit(BilledMap(h, m), open, PaidMap(h, m));
  }

  lemma KeptBelowBilled(w: World, m: Meter)
    requires RecordsSane(w)
    ensures KeptTotal(w.history, m) <= BilledTotal(w.history, m)
  {
    TotalMono(KeptMap(w.history, m), BilledMap(w.history, m));
  }

  lemma CountsPresent(w: World, m: Meter)
    requires Sound(w) && Present(m, w.wall, w.clock)
    requires w.ledger.dailyDay.Some? && w.ledger.monthlyKey.Some?
    ensures KeptTotal(w.history, m) <= BilledTotal(w.history, m) <= Counted(w, m)
  {
    if m.Requests? || m.Tokens? { CountsMinute(w, m); } else { CountsSpend(w, m); }
    KeptBelowBilled(w, m);
  }

  // ---------- Admission ----------

  /** What an admitted estimate adds to a present meter. */
  function Asked(est: Estimate, m: Meter): real {
    match m
    case Requests(_) => 1.0
    case Tokens(_) => est.tokens as real
    case Daily(_) => CostOr0(est.cost)
    case Monthly(_) => CostOr0(est.cost)
  }

  lemma Unsaturated(start: nat, m: map<nat, real>, x: real, limit: nat)
    requires limit <= I64_MAX && x >= 0.0
    ensures Saturated(SaturatedTotal(start, m) + x) <= limit as real <==> start as real + Total(m) + x <= limit as real
  {
  }

  /** The deque's sum fits in a `u64`. */
  predicate SumFits(q: seq<MinuteUse>) {
    QueueTokens(q) <= U64_MAX
  }

  /** What the deque's sum loses by wrapping. */
  function Lost(q: seq<MinuteUse>): (r: nat)
    ensures r == 0 <==> SumFits(q)
    ensures r == 0 || r > U64_MAX
  {
    QueueTokens(q) - QueueTokens(q) % (U64_MAX + 1)
  }

  function LostTo(q: seq<MinuteUse>, m: Meter): nat {
    if m.Tokens? then Lost(q) else 0
  }

  /** Saturating arithmetic never turns a rejection into an admission: what passes the check fits the limit exactly,
      except that the token check overlooks what the deque's sum has lost by wrapping. */
  lemma AdmittedFits(w: World, lim: Limits, est: Estimate, m: Meter)
    requires ValidLimits(lim) && LimitOf(lim, m).Some?
    requires ReserveVerdict(lim, est, Reading(w.ledger, w.wall, w.clock)) == Admitted
    requires (m.Daily? || m.Monthly?) ==> est.cost.Some?
    ensures Counted(w, m) + Asked(est, m) <= LimitOf(lim, m).value + LostTo(w.ledger.minute, m) as real
  {
    var s := w.ledger;
    if m.Requests? {
      Unsaturated(|s.minute|, YoungOnes(s.active, w.clock), 1.0, lim.rpm.value);
    } else if m.Tokens? {
      var read := QueueTokens(s.minute) % (U64_MAX + 1);
      Unsaturated(read, YoungTokens(s.active, w.clock), est.tokens as real, lim.tpm.value);
    }
  }

  /** Room for tokens keeps the deque's sum far from wrapping. */
  lemma RoomMeansFit(w: World, lim: Limits)
    requires TokenRoom(w, lim) && TokensHonest(w.history) && ValidLimits(lim) && LimitOf(lim, Tokens(0)).Some?
    ensures QueueTokens(w.ledger.minute) <= lim.tpm.value && Lost(w.ledger.minute) == 0
  {
    TotalNonnegative(YoungTokens(w.ledger.active, w.clock));
  }

  function Opened(h: History, id: nat, res: Reservation): History {
    h[id := Record(res, Open)]
  }

  function Admission(t: World, id: nat, est: Estimate): World {
    var res := Reservation(t.clock, est.tokens, est.cost, t.wall, t.wall.MonthKey());
    t.(ledger := Reserved(t.ledger, id, est, t.wall, t.clock), history := Opened(t.history, id, res))
  }

  lemma OpenedHonest(h: History, id: nat, res: Reservation)
    requires id !in h && TokensHonest(Opened(h, id, res))
    ensures TokensHonest(h)
  {
    forall k | k in h && h[k].fate.Paid? ensures h[k].fate.tokens <= h[k].res.tokens {
      assert Opened(h, id, res)[k] == h[k];
    }
  }

  lemma OpenedPaid(h: History, id: nat, res: Reservation, m: Meter)
    requires id !in h
    ensures PaidTotal(Opened(h, id, res), m) == PaidTotal(h, m)
  {
    assert PaidMap(Opened(h, id, res), m) == PaidMap(h, m)[id := 0.0];
    TotalInsert(PaidMap(h, m), id, 0.0);
  }

  lemma OpenedKept(h: History, id: nat, res: Reservation, m: Meter)
    requires id !in h
    ensures KeptTotal(Opened(h, id, res), m) == KeptTotal(h, m) + Held(Record(res, Open), m)
  {
    var r := Record(res, Open);
    assert Kept(r, m) == Held(r, m);
    assert KeptMap(Opened(h, id, res), m) == KeptMap(h, m)[id := Held(r, m)];
    TotalInsert(KeptMap(h, m), id, Held(r, m));
  }

  lemma OpenedQueue(t: World, id: nat, res: Reservation)
    requires QueueComplete(t) && id !in t.history
    ensures QueueComplete(t.(history := Opened(t.history, id, res)))
  {
    var h := Opened(t.history, id, res);
    assert forall k :: k in t.history ==> h[k] == t.history[k];
  }

  lemma AdmissionSound(t: World, id: nat, est: Estimate)
    requires Sound(t) && id !in t.history && CostOr0(est.cost) >= 0.0
    requires t.ledger.dailyDay.Some? && t.ledger.monthlyKey.Some?
    ensures Sound(Admission(t, id, est))
  {
    var a := Admission(t, id, est);
    var res := a.history[id].res;
    OpenedPaid(t.history, id, res, Daily(t.wall));
    OpenedPaid(t.history, id, res, Monthly(t.wall.MonthKey()));
    assert RecordsSane(a);
    assert ActiveMatches(a);
    assert QueueComplete(a) by { OpenedQueue(t, id, res); }
  }

  /** An admitted reservation fits every meter it is charged to. */
  lemma AdmissionFits(t: World, lim: Limits, est: Estimate, r: Record, m: Meter)
    requires Sound(t) && ValidLimits(lim)
    requires t.ledger.dailyDay.Some? && t.ledger.monthlyKey.Some?
    requires ReserveVerdict(lim, est, Reading(t.ledger, t.wall, t.clock)) == Admitted
    requires r == Record(Reservation(t.clock, est.tokens, est.cost, t.wall, t.wall.MonthKey()), Open)
    requires LimitOf(lim, m).Some? && Held(r, m) != 0.0
    ensures KeptTotal(t.history, m) + Held(r, m) <= LimitOf(lim, m).value + LostTo(t.ledger.minute, m) as real
  {
    CountsPresent(t, m);
    AdmittedFits(t, lim, est, m);
  }

  lemma AdmissionWithin(t: World, lim: Limits, id: nat, est: Estimate)
    requires Inv(t, lim) && ValidLimits(lim) && id !in t.history
    requires t.ledger.dailyDay.Some? && t.ledger.monthlyKey.Some?
    requires ReserveVerdict(lim, est, Reading(t.ledger, t.wall, t.clock)) == Admitted
    ensures Within(Admission(t, id, est).history, lim)
  {
    var res := Reservation(t.clock, est.tokens, est.cost, t.wall, t.wall.MonthKey());
    var h := Opened(t.history, id, res);
    forall m ensures MeterWithin(h, lim, m) {
      OpenedKept(t.history, id, res, m);
      assert MeterWithin(t.history, lim, m);
      if TokensHonest(h) { OpenedHonest(t.history, id, res); }
      if LimitOf(lim, m).Some? && (m.Tokens? ==> TokensHonest(h)) && Held(Record(res, Open), m) != 0.0 {
        if m.Tokens? { RoomMeansFit(t, lim); }
        AdmissionFits(t, lim, est, Record(res, Open), m);
      }
    }
  }

  lemma AdmissionRoom(t: World, lim: Limits, id: nat, est: Estimate)
    requires TokenRoom(t, lim) && ValidLimits(lim) && id !in t.history && id !in t.ledger.active
    requires ReserveVerdict(lim, est, Reading(t.ledger, t.wall, t.clock)) == Admitted
    ensures TokenRoom(Admission(t, id, est), lim)
  {
    var a := Admission(t, id, est);
    if LimitOf(lim, Tokens(0)).Some? && TokensHonest(a.history) {
      OpenedHonest(t.history, id, a.history[id].res);
      RoomMeansFit(t, lim);
      AdmittedFits(t, lim, est, Tokens(0));
      var before := YoungTokens(t.ledger.active, t.clock);
      assert YoungTokens(a.ledger.active, t.clock) == before[id := est.tokens as real];
      TotalInsert(before, id, est.tokens as real);
    }
  }

  // ---------- Settlement and cancellation ----------

  lemma HonestBefore(h: History, id: nat, f: Fate)
    requires id in h && h[id].fate.Open? && TokensHonest(Closed(h, id, f))
    ensures TokensHonest(h)
  {
    var c := Closed(h, id, f);
    forall k | k in h && h[k].fate.Paid? ensures h[k].fate.tokens <= h[k].res.tokens {
      assert c[k] == h[k];
    }
  }

  /** Closing an open record never raises what a meter keeps. */
  lemma ClosingWithin(h: History, lim: Limits, id: nat, f: Fate)
    requires Within(h, lim) && id in h && h[id].fate.Open? && (f.Paid? || f.Cancelled?)
    requires forall k :: k in h ==>
      CostOr0(h[k].res.cost) >= 0.0 && (h[k].fate.Paid? ==> CostOr0(h[k].fate.cost) >= 0.0)
    ensures Within(Closed(h, id, f), lim)
  {
    var c := Closed(h, id, f);
    forall m ensures MeterWithin(c, lim, m) {
      assert MeterWithin(h, lim, m);
      TotalMono(KeptMap(c, m), KeptMap(h, m));
      if TokensHonest(c) { HonestBefore(h, id, f); }
    }
  }

  function Settlement(t: World, id: nat, tokens: Option<nat>, cost: Option<real>): World
    requires id in t.ledger.active
  {
    var res := t.ledger.active[id];
    World(
      Settled(t.ledger, id, tokens, cost, t.clock),
      Closed(t.history, id, Paid(tokens.Or(res.tokens), FinalCost(cost, res.cost))),
      if Young(res.at, t.clock) then t.order + [id] else t.order,
      t.clock, t.wall)
  }

  lemma SettlementQueue(t: World, id: nat, tokens: Option<nat>, cost: Option<real>)
    requires Sound(t) && id in t.ledger.active
    ensures QueueComplete(Settlement(t, id, tokens, cost)) && ActiveMatches(Settlement(t, id, tokens, cost))
  {
    var a := Settlement(t, id, tokens, cost);
    assert id !in t.order;
    forall k | k in a.history && a.history[k].fate.Paid? && Young(a.history[k].res.at, a.clock) ensures k in a.order {
      if k == id { assert a.order[|t.order|] == id; } else { assert a.history[k] == t.history[k]; assert k in t.order; }
    }
  }

  lemma PaidGrows(t: World, id: nat, tokens: Option<nat>, cost: Option<real>, m: Meter)
    requires ActiveMatches(t) && id in t.ledger.active
    ensures var a := Settlement(t, id, tokens, cost);
      PaidTotal(a.history, m) == PaidTotal(t.history, m) + Billed(a.history[id], m)
  {
    var a := Settlement(t, id, tokens, cost);
    var before, after := PaidMap(t.history, m), PaidMap(a.history, m);
    TotalRemove(before, id);
    TotalRemove(after, id);
    assert before - {id} == after - {id};
  }

  lemma SettlementSpend(t: World, id: nat, tokens: Option<nat>, cost: Option<real>)
    requires Sound(t) && id in t.ledger.active && CostOr0(cost) >= 0.0
    ensures SpendComplete(Settlement(t, id, tokens, cost))
  {
    PaidGrows(t, id, tokens, cost, Daily(t.wall));
    PaidGrows(t, id, tokens, cost, Monthly(t.wall.MonthKey()));
  }

  lemma SettlementSound(t: World, id: nat, tokens: Option<nat>, cost: Option<real>)
    requires Sound(t) && id in t.ledger.active && CostOr0(cost) >= 0.0
    ensures Sound(Settlement(t, id, tokens, cost))
  {
    SettlementQueue(t, id, tokens, cost);
    SettlementSpend(t, id, tokens, cost);
    assert RecordsSane(Settlement(t, id, tokens, cost));
  }

  lemma PushedTokens(q: seq<MinuteUse>, u: MinuteUse)
    ensures QueueTokens(q + [u]) == QueueTokens(q) + u.tokens
  {
    assert (q + [u])[..|q|] == q;
  }

  lemma SettlementRoom(t: World, lim: Limits, id: nat, tokens: Option<nat>, cost: Option<real>)
    requires Sound(t) && TokenRoom(t, lim) && id in t.ledger.active
    ensures TokenRoom(Settlement(t, id, tokens, cost), lim)
  {
    var a := Settlement(t, id, tokens, cost);
    if LimitOf(lim, Tokens(0)).Some? && TokensHonest(a.history) {
      HonestBefore(t.history, id, a.history[id].fate);
      TakeYoung(t.ledger.active, id, t.wall, t.clock);
      PushedTokens(t.ledger.minute, MinuteUse(t.ledger.active[id].at, a.history[id].fate.tokens));
    }
  }

  /** Dropping an open reservation. */
  function Withdrawal(w: World, id: nat): World {
    w.(ledger := w.ledger.(active := w.ledger.active - {id}), history := Closed(w.history, id, Cancelled))
  }

  lemma CancelledPaid(h: History, id: nat, m: Meter)
    ensures PaidTotal(Closed(h, id, Cancelled), m) == PaidTotal(h, m)
  {
    assert PaidMap(Closed(h, id, Cancelled), m) == PaidMap(h, m);
  }

  lemma CancelledQueue(w: World, id: nat)
    requires QueueComplete(w)
    ensures QueueComplete(w.(history := Closed(w.history, id, Cancelled)))
  {
    var c := Closed(w.history, id, Cancelled);
    assert forall k :: k in c && c[k].fate.Paid? ==> c[k] == w.history[k];
    assert forall k :: k in w.history && w.history[k].fate.Paid? ==> c[k] == w.history[k];
  }

  lemma WithdrawalSound(w: World, id: nat)
    requires Sound(w)
    ensures Sound(Withdrawal(w, id))
  {
    var a := Withdrawal(w, id);
    CancelledPaid(w.history, id, Daily(w.wall));
    CancelledPaid(w.history, id, Monthly(w.wall.MonthKey()));
    assert QueueComplete(a) by { CancelledQueue(w, id); }
    assert RecordsSane(a);
    assert ActiveMatches(a);
  }

  lemma WithdrawalRoom(w: World, lim: Limits, id: nat)
    requires TokenRoom(w, lim)
    ensures TokenRoom(Withdrawal(w, id), lim)
  {
    var a := Withdrawal(w, id);
    if TokensHonest(a.history) && id in w.history && w.history[id].fate.Open? {
      HonestBefore(w.history, id, Cancelled);
    }
    TotalMono(YoungTokens(a.ledger.active, w.clock), YoungTokens(w.ledger.active, w.clock));
  }

  lemma CancelKeeps(w: World, lim: Limits, id: nat)
    requires Inv(w, lim)
    ensures Inv(Withdrawal(w, id), lim)
  {
    WithdrawalSound(w, id);
    WithdrawalRoom(w, lim, id);
    if id in w.history && w.history[id].fate.Open? {
      ClosingWithin(w.history, lim, id, Cancelled);
    }
  }

  // ---------- Every step, every run ----------

  lemma TickKeeps(w: World, lim: Limits, wall: Date, now: nat)
    requires Inv(w, lim) && DateLe(w.wall, wall) && w.clock <= now
    ensures Inv(Ticked(w, wall, now), lim)
  {
    TickSound(w, wall, now);
    TickRoom(w, lim, wall, now);
  }

  lemma ReserveKeeps(w: World, lim: Limits, e: Event)
    requires Inv(w, lim) && ValidLimits(lim) && e.Reserve? && Allowed(w, e)
    ensures Inv(Step(w, lim, e), lim)
  {
    var t := Ticked(w, e.wall, e.now);
    TickKeeps(w, lim, e.wall, e.now);
    if LedgerStep(w.ledger, lim, e).1 == Admitted {
      AdmissionSound(t, e.id, e.est);
      AdmissionRoom(t, lim, e.id, e.est);
      AdmissionWithin(t, lim, e.id, e.est);
      assert Step(w, lim, e) == Admission(t, e.id, e.est);
    } else {
      assert Step(w, lim, e) == t;
    }
  }

  lemma ReconcileIsSettlement(w: World, lim: Limits, e: Event)
    requires e.Reconcile? && ActiveMatches(w)
    ensures var t := Ticked(w, e.wall, e.now);
      Step(w, lim, e) == if e.id in t.ledger.active then Settlement(t, e.id, e.tokens, e.cost) else t
  {
  }

  lemma ReconcileKeeps(w: World, lim: Limits, e: Event)
    requires Inv(w, lim) && e.Reconcile? && Allowed(w, e)
    ensures Inv(Step(w, lim, e), lim)
  {
    var t := Ticked(w, e.wall, e.now);
    TickKeeps(w, lim, e.wall, e.now);
    ReconcileIsSettlement(w, lim, e);
    if e.id in t.ledger.active {
      SettlementSound(t, e.id, e.tokens, e.cost);
      SettlementRoom(t, lim, e.id, e.tokens, e.cost);
      ClosingWithin(t.history, lim, e.id, Settlement(t, e.id, e.tokens, e.cost).history[e.id].fate);
    }
  }

  /** Every step keeps the invariant. */
  lemma StepKeeps(w: World, lim: Limits, e: Event)
    requires Inv(w, lim) && ValidLimits(lim) && Allowed(w, e)
    ensures Inv(Step(w, lim, e), lim)
  {
    match e
    case Reserve(_, _, _, _) => ReserveKeeps(w, lim, e);
    case Reconcile(_, _, _, _, _) => ReconcileKeeps(w, lim, e);
    case Cancel(id) =>
      CancelKeeps(w, lim, id);
      assert Step(w, lim, e) == Withdrawal(w, id);
    case Check(wall, now) =>
      TickKeeps(w, lim, wall, now);
      assert Step(w, lim, e) == Ticked(w, wall, now);
  }

  lemma {:induction false} RunKeeps(w: World, lim: Limits, es: seq<Event>)
    requires Inv(w, lim) && ValidLimits(lim) && AllAllowed(w, lim, es)
    ensures Inv(Run(w, lim, es), lim)
  {
    if es != [] {
      RunKeeps(w, lim, es[..|es| - 1]);
      StepKeeps(Run(w, lim, es[..|es| - 1]), lim, es[|es| - 1]);
    }
  }

  /** The ledger as `KeyLedger::default` leaves it, at any time. */
  lemma EmptyKeeps(lim: Limits, clock: nat, wall: Date)
    ensures Inv(World(EMPTY, map[], [], clock, wall), lim)
  {
    var w := World(EMPTY, map[], [], clock, wall);
    assert YoungTokens(w.ledger.active, clock) == map[];
    forall m ensures MeterWithin(w.history, lim, m) {
      assert KeptMap(w.history, m) == map[];
      assert lim.daily.Some? && lim.daily.value > 0.0 ==> LimitOf(lim, Daily(wall)) == lim.daily;
    }
  }
}
