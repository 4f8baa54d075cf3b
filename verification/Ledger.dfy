/** The per-key admission ledger of `src/admission.rs`: its state, what each operation does to it,
    and the mutable class whose methods are proved to do exactly that. */
module Ledger {
  import opened Common
  import opened Totals

  /** Instants are nanoseconds on a monotonic clock. */
  const MINUTE_WINDOW: nat := 60 * SECOND

  datatype Month = Month(year: int, month: int)
  /** A UTC calendar date, `NaiveDate`; the ledger sees the wall clock only through it. */
  datatype Date = Date(year: int, month: int, day: int) {
    function MonthKey(): Month { Month(year, month) }
  }

  predicate DateLe(a: Date, b: Date) {
    || a.year < b.year
    || (a.year == b.year && (a.month < b.month || (a.month == b.month && a.day <= b.day)))
  }

  datatype MinuteUse = MinuteUse(at: nat, tokens: nat)
  datatype Reservation = Reservation(at: nat, tokens: nat, cost: Option<real>, day: Date, month: Month)
  datatype Estimate = Estimate(tokens: nat, cost: Option<real>)

  /** The limits of a virtual key. An absent or nonpositive limit is not enforced. */
  datatype Limits = Limits(rpm: Option<int>, tpm: Option<int>, daily: Option<real>, monthly: Option<real>)

  datatype Verdict = Admitted | OverRequests | OverTokens | OverDaily | OverMonthly

  datatype State = State(
    minute: seq<MinuteUse>,
    active: map<nat, Reservation>,
    dailyDay: Option<Date>,
    dailySpend: real,
    monthlyKey: Option<Month>,
    monthlySpend: real)

  const EMPTY := State([], map[], None, 0.0, None, 0.0)

  /** What `current` reports. `requests` and `tokens` are `u64` values, written as reals. */
  datatype Usage = Usage(requests: real, tokens: real, daily: real, monthly: real)

  predicate Young(at: nat, now: nat) {
    now < at + MINUTE_WINDOW
  }

  // ---------- What the operations compute ----------

  /** The deque after popping stale entries from the front only. */
  function Pruned(q: seq<MinuteUse>, now: nat): seq<MinuteUse> {
    if q != [] && !Young(q[0].at, now) then Pruned(q[1..], now) else q
  }

  /** Pruning drops a prefix of stale entries and stops at the first young one, whatever stands behind it. */
  lemma {:induction false} PrunedIsSuffix(q: seq<MinuteUse>, now: nat) returns (n: nat)
    ensures n <= |q| && Pruned(q, now) == q[n..]
    ensures forall i :: 0 <= i < n ==> !Young(q[i].at, now)
    ensures n < |q| ==> Young(q[n].at, now)
  {
    if q != [] && !Young(q[0].at, now) {
      var k := PrunedIsSuffix(q[1..], now);
      assert q[1..][k..] == q[k + 1..];
      assert forall i :: 1 <= i < k + 1 ==> q[i] == q[1..][i - 1];
      n := k + 1;
    } else {
      n := 0;
    }
  }

  lemma PrunedNoLonger(q: seq<MinuteUse>, now: nat)
    ensures |Pruned(q, now)| <= |q|
  {
    var n := PrunedIsSuffix(q, now);
  }

  function Rolled(s: State, wall: Date): State {
    var d := if s.dailyDay != Some(wall) then s.(dailyDay := Some(wall), dailySpend := 0.0) else s;
    if d.monthlyKey != Some(wall.MonthKey()) then d.(monthlyKey := Some(wall.MonthKey()), monthlySpend := 0.0) else d
  }

  function Advanced(s: State, wall: Date, now: nat): State {
    var r := Rolled(s, wall);
    r.(minute := Pruned(r.minute, now))
  }

  function QueueTokens(q: seq<MinuteUse>): nat {
    if q == [] then 0 else QueueTokens(q[..|q| - 1]) + q[|q| - 1].tokens
  }

  function Saturated(x: real): real {
    if x > U64_MAX as real then U64_MAX as real else x
  }

  /** A `u64` counter that starts at `start` and adds the entries of `m` with saturation. */
  ghost function SaturatedTotal(start: nat, m: map<nat, real>): real {
    Saturated(start as real + Total(m))
  }

  function CostOr0(c: Option<real>): real {
    c.Or(0.0)
  }

  ghost function YoungOnes(active: map<nat, Reservation>, now: nat): map<nat, real> {
    map id | id in active :: if Young(active[id].at, now) then 1.0 else 0.0
  }

  ghost function YoungTokens(active: map<nat, Reservation>, now: nat): map<nat, real> {
    map id | id in active :: if Young(active[id].at, now) then active[id].tokens as real else 0.0
  }

  ghost function DayCosts(active: map<nat, Reservation>, day: Date): map<nat, real> {
    map id | id in active :: if active[id].day == day then CostOr0(active[id].cost) else 0.0
  }

  ghost function MonthCosts(active: map<nat, Reservation>, month: Month): map<nat, real> {
    map id | id in active :: if active[id].month == month then CostOr0(active[id].cost) else 0.0
  }

  /** The four readings over an advanced state. The deque's own token sum is a plain `u64` sum, which
      wraps; the additions for open reservations saturate. */
  ghost function Reading(s: State, wall: Date, now: nat): Usage {
    Usage(
      SaturatedTotal(|s.minute|, YoungOnes(s.active, now)),
      SaturatedTotal(QueueTokens(s.minute) % (U64_MAX + 1), YoungTokens(s.active, now)),
      s.dailySpend + Total(DayCosts(s.active, wall)),
      s.monthlySpend + Total(MonthCosts(s.active, wall.MonthKey())))
  }

  /** `check_current`: is some limit already reached? */
  function CheckVerdict(lim: Limits, u: Usage): Verdict {
    if lim.rpm.Some? && lim.rpm.value > 0 && u.requests >= lim.rpm.value as real then OverRequests
    else if lim.tpm.Some? && lim.tpm.value > 0 && u.tokens >= lim.tpm.value as real then OverTokens
    else if lim.daily.Some? && lim.daily.value > 0.0 && u.daily >= lim.daily.value then OverDaily
    else if lim.monthly.Some? && lim.monthly.value > 0.0 && u.monthly >= lim.monthly.value then OverMonthly
    else Admitted
  }

  /** `reserve`: would this estimate pass some limit? An unknown cost skips both budgets. */
  function ReserveVerdict(lim: Limits, est: Estimate, u: Usage): Verdict {
    var requests, tokens := Saturated(u.requests + 1.0), Saturated(u.tokens + est.tokens as real);
    if lim.rpm.Some? && lim.rpm.value > 0 && requests > lim.rpm.value as real then OverRequests
    else if lim.tpm.Some? && lim.tpm.value > 0 && tokens > lim.tpm.value as real then OverTokens
    else if est.cost.None? then Admitted
    else if lim.daily.Some? && lim.daily.value > 0.0 && u.daily + est.cost.value > lim.daily.value then OverDaily
    else if lim.monthly.Some? && lim.monthly.value > 0.0 && u.monthly + est.cost.value > lim.monthly.value
    then OverMonthly
    else Admitted
  }

  function Reserved(s: State, id: nat, est: Estimate, wall: Date, now: nat): State {
    s.(active := s.active[id := Reservation(now, est.tokens, est.cost, wall, wall.MonthKey())])
  }

  /** Settling on an advanced state: the reservation leaves `active`, joins the deque if still young, and its
      cost reaches each accumulator that still holds its period. */
  function Settled(s: State, id: nat, tokens: Option<nat>, cost: Option<real>, now: nat): State {
    if id !in s.active then s
    else
      var a := s.active[id];
      var used := tokens.Or(a.tokens);
      var paid := if cost.Some? then cost else a.cost;
      State(
        if Young(a.at, now) then s.minute + [MinuteUse(a.at, used)] else s.minute,
        s.active - {id},
        s.dailyDay,
        if s.dailyDay == Some(a.day) then s.dailySpend + CostOr0(paid) else s.dailySpend,
        s.monthlyKey,
        if s.monthlyKey == Some(a.month) then s.monthlySpend + CostOr0(paid) else s.monthlySpend)
  }

  // ---------- The ledger object ----------

  function Plus(a: Usage, b: Usage): Usage {
    Usage(a.requests + b.requests, a.tokens + b.tokens, a.daily + b.daily, a.monthly + b.monthly)
  }

  function Single(a: Reservation, wall: Date, now: nat): Usage {
    Usage(if Young(a.at, now) then 1.0 else 0.0,
          if Young(a.at, now) then a.tokens as real else 0.0,
          if a.day == wall then CostOr0(a.cost) else 0.0,
          if a.month == wall.MonthKey() then CostOr0(a.cost) else 0.0)
  }

  lemma SaturatedStep(acc: nat, exact: real, x: nat)
    requires acc as real == Saturated(exact)
    ensures SatAdd(acc, x) as real == Saturated(exact + x as real)
  {
  }

  /** One open reservation joins the four readings. */
  method AddOne(a: Reservation, wall: Date, now: nat,
                requests0: nat, tokens0: nat, daily0: real, monthly0: real, ghost exact: Usage)
    returns (requests: nat, tokens: nat, daily: real, monthly: real)
    requires requests0 <= U64_MAX && tokens0 <= U64_MAX
    requires requests0 as real == Saturated(exact.requests) && tokens0 as real == Saturated(exact.tokens)
    requires daily0 == exact.daily && monthly0 == exact.monthly
    ensures requests <= U64_MAX && tokens <= U64_MAX
    ensures var r := Plus(exact, Single(a, wall, now));
      && requests as real == Saturated(r.requests) && tokens as real == Saturated(r.tokens)
      && daily == r.daily && monthly == r.monthly
  {
    requests, tokens, daily, monthly := requests0, tokens0, daily0, monthly0;
    SaturatedStep(requests, exact.requests, 1);
    SaturatedStep(tokens, exact.tokens, a.tokens);
    if Young(a.at, now) {
      requests := SatAdd(requests, 1);
      tokens := SatAdd(tokens, a.tokens);
    }
    if a.cost.Some? {
      if a.day == wall { daily := daily + a.cost.value; }
      if a.month == wall.MonthKey() { monthly := monthly + a.cost.value; }
    }
  }

  ghost function YoungCount(active: map<nat, Reservation>, now: nat): real { Total(YoungOnes(active, now)) }
  ghost function YoungTokenSum(active: map<nat, Reservation>, now: nat): real { Total(YoungTokens(active, now)) }
  ghost function DaySum(active: map<nat, Reservation>, day: Date): real { Total(DayCosts(active, day)) }
  ghost function MonthSum(active: map<nat, Reservation>, month: Month): real { Total(MonthCosts(active, month)) }

  /** The four sums over a set of open reservations. */
  ghost function OpenSums(active: map<nat, Reservation>, wall: Date, now: nat): Usage {
    Usage(YoungCount(active, now), YoungTokenSum(active, now), DaySum(active, wall), MonthSum(active, wall.MonthKey()))
  }

  lemma PlusAssociative(a: Usage, b: Usage, c: Usage)
    ensures Plus(Plus(a, b), c) == Plus(a, Plus(b, c))
  {
  }

  lemma NothingOpen(rest: map<nat, Reservation>, wall: Date, now: nat)
    requires rest == map[]
    ensures OpenSums(rest, wall, now) == Usage(0.0, 0.0, 0.0, 0.0)
  {
    assert YoungOnes(rest, now) == map[] && YoungTokens(rest, now) == map[];
    assert DayCosts(rest, wall) == map[] && MonthCosts(rest, wall.MonthKey()) == map[];
  }

  lemma SaturatedSame(exact: real, start: nat, m: map<nat, real>)
    requires exact == start as real + Total(m)
    ensures Saturated(exact) == SaturatedTotal(start, m)
  {
  }

  lemma TakeYoung(rest: map<nat, Reservation>, id: nat, wall: Date, now: nat)
    requires id in rest
    ensures YoungCount(rest, now) == Single(rest[id], wall, now).requests + YoungCount(rest - {id}, now)
    ensures YoungTokenSum(rest, now) == Single(rest[id], wall, now).tokens + YoungTokenSum(rest - {id}, now)
  {
    TotalRemove(YoungOnes(rest, now), id);
    TotalRemove(YoungTokens(rest, now), id);
    assert YoungOnes(rest, now) - {id} == YoungOnes(rest - {id}, now);
    assert YoungTokens(rest, now) - {id} == YoungTokens(rest - {id}, now);
  }

  lemma TakeDay(rest: map<nat, Reservation>, id: nat, wall: Date, now: nat)
    requires id in rest
    ensures DaySum(rest, wall) == Single(rest[id], wall, now).daily + DaySum(rest - {id}, wall)
  {
    TotalRemove(DayCosts(rest, wall), id);
    assert DayCosts(rest, wall) - {id} == DayCosts(rest - {id}, wall);
  }

  lemma TakeMonth(rest: map<nat, Reservation>, id: nat, wall: Date, now: nat)
    requires id in rest
    ensures var month := wall.MonthKey();
      MonthSum(rest, month) == Single(rest[id], wall, now).monthly + MonthSum(rest - {id}, month)
  {
    TotalRemove(MonthCosts(rest, wall.MonthKey()), id);
    assert MonthCosts(rest, wall.MonthKey()) - {id} == MonthCosts(rest - {id}, wall.MonthKey());
  }

  lemma PlusByParts(a: Usage, b: Usage, c: Usage)
    requires a.requests == b.requests + c.requests && a.tokens == b.tokens + c.tokens
    requires a.daily == b.daily + c.daily && a.monthly == b.monthly + c.monthly
    ensures a == Plus(b, c)
  {
  }

  /** One open reservation leaves the sums over `rest`. */
  lemma {:induction false} TakeOne(rest: map<nat, Reservation>, id: nat, wall: Date, now: nat)
    requires id in rest
    ensures OpenSums(rest, wall, now) == Plus(Single(rest[id], wall, now), OpenSums(rest - {id}, wall, now))
  {
    TakeYoung(rest, id, wall, now);
    TakeDay(rest, id, wall, now);
    TakeMonth(rest, id, wall, now);
    PlusByParts(OpenSums(rest, wall, now), Single(rest[id], wall, now), OpenSums(rest - {id}, wall, now));
  }

  /** Walks the open reservations in whatever order the map yields them. */
  method AddOpen(active: map<nat, Reservation>, wall: Date, now: nat,
                 requests0: nat, tokens0: nat, daily0: real, monthly0: real)
    returns (requests: nat, tokens: nat, daily: real, monthly: real)
    requires requests0 <= U64_MAX && tokens0 <= U64_MAX
    ensures requests <= U64_MAX && tokens <= U64_MAX
    ensures requests as real == SaturatedTotal(requests0, YoungOnes(active, now))
    ensures tokens as real == SaturatedTotal(tokens0, YoungTokens(active, now))
    ensures daily == daily0 + Total(DayCosts(active, wall))
    ensures monthly == monthly0 + Total(MonthCosts(active, wall.MonthKey()))
  {
    requests, tokens, daily, monthly := requests0, tokens0, daily0, monthly0;
    // The same four amounts without the ceiling on the counters.
    ghost var start := Usage(requests0 as real, tokens0 as real, daily0, monthly0);
    ghost var exact := start;
    var rest := active;
    while rest != map[]
      invariant requests <= U64_MAX && tokens <= U64_MAX
      invariant requests as real == Saturated(exact.requests) && tokens as real == Saturated(exact.tokens)
      invariant daily == exact.daily && monthly == exact.monthly
      invariant Plus(exact, OpenSums(rest, wall, now)) == Plus(start, OpenSums(active, wall, now))
      decreases |rest|
    {
      var id :| id in rest;
      TakeOne(rest, id, wall, now);
      PlusAssociative(exact, Single(rest[id], wall, now), OpenSums(rest - {id}, wall, now));
      requests, tokens, daily, monthly := AddOne(rest[id], wall, now, requests, tokens, daily, monthly, exact);
      exact := Plus(exact, Single(rest[id], wall, now));
      rest := rest - {id};
    }
    NothingOpen(rest, wall, now);
    SaturatedSame(exact.requests, requests0, YoungOnes(active, now));
    SaturatedSame(exact.tokens, tokens0, YoungTokens(active, now));
  }

  class KeyLedger {
    var minute: seq<MinuteUse>
    var active: map<nat, Reservation>
    var dailyDay: Option<Date>
    var dailySpend: real
    var monthlyKey: Option<Month>
    var monthlySpend: real

    function Contents(): State
      reads this
    {
      State(minute, active, dailyDay, dailySpend, monthlyKey, monthlySpend)
    }

    constructor ()
      ensures Contents() == EMPTY
    {
      minute, active := [], map[];
      dailyDay, dailySpend := None, 0.0;
      monthlyKey, monthlySpend := None, 0.0;
    }

    method RollPeriods(wall: Date)
      modifies this
      ensures Contents() == Rolled(old(Contents()), wall)
    {
      if dailyDay != Some(wall) {
        dailyDay, dailySpend := Some(wall), 0.0;
      }
      var month := wall.MonthKey();
      if monthlyKey != Some(month) {
        monthlyKey, monthlySpend := Some(month), 0.0;
      }
    }

    method Prune(now: nat)
      modifies this`minute
      ensures minute == Pruned(old(minute), now)
    {
      while minute != [] && !Young(minute[0].at, now)
        invariant Pruned(minute, now) == Pruned(old(minute), now)
        decreases |minute|
      {
        minute := minute[1..];
      }
    }

    method MinuteTokens() returns (tokens: nat)
      ensures tokens == QueueTokens(minute) % (U64_MAX + 1)
    {
      tokens := 0;
      var i := 0;
      while i < |minute|
        invariant 0 <= i <= |minute|
        invariant tokens == QueueTokens(minute[..i]) % (U64_MAX + 1)
      {
        assert minute[..i + 1][..i] == minute[..i];
        tokens := (tokens + minute[i].tokens) % (U64_MAX + 1);
        i := i + 1;
      }
      assert minute[..i] == minute;
    }

    /** The length of a deque always fits in a `u64`. */
    method Current(wall: Date, now: nat) returns (requests: nat, tokens: nat, daily: real, monthly: real)
      requires |minute| <= U64_MAX
      modifies this
      ensures Contents() == Advanced(old(Contents()), wall, now)
      ensures requests <= U64_MAX && tokens <= U64_MAX
      ensures Usage(requests as real, tokens as real, daily, monthly) == Reading(Contents(), wall, now)
    {
      RollPeriods(wall);
      Prune(now);
      PrunedNoLonger(old(minute), now);
      var queued := MinuteTokens();
      requests, tokens, daily, monthly := AddOpen(active, wall, now, |minute|, queued, dailySpend, monthlySpend);
    }

    method CheckCurrent(lim: Limits, wall: Date, now: nat) returns (v: Verdict)
      requires |minute| <= U64_MAX
      modifies this
      ensures Contents() == Advanced(old(Contents()), wall, now)
      ensures v == CheckVerdict(lim, Reading(Contents(), wall, now))
    {
      var requests, tokens, daily, monthly := Current(wall, now);
      if lim.rpm.Some? && lim.rpm.value > 0 {
        if requests >= lim.rpm.value { return OverRequests; }
      }
      if lim.tpm.Some? && lim.tpm.value > 0 {
        if tokens >= lim.tpm.value { return OverTokens; }
      }
      if lim.daily.Some? && lim.daily.value > 0.0 {
        if daily >= lim.daily.value { return OverDaily; }
      }
      if lim.monthly.Some? && lim.monthly.value > 0.0 {
        if monthly >= lim.monthly.value { return OverMonthly; }
      }
      return Admitted;
    }

    method Reserve(id: nat, lim: Limits, est: Estimate, wall: Date, now: nat) returns (v: Verdict)
      requires |minute| <= U64_MAX
      modifies this
      ensures var s := Advanced(old(Contents()), wall, now);
        && v == ReserveVerdict(lim, est, Reading(s, wall, now))
        && Contents() == if v == Admitted then Reserved(s, id, est, wall, now) else s
    {
      var requests, tokens, daily, monthly := Current(wall, now);
      if lim.rpm.Some? && lim.rpm.value > 0 {
        if SatAdd(requests, 1) > lim.rpm.value { return OverRequests; }
      }
      if lim.tpm.Some? && lim.tpm.value > 0 {
        if SatAdd(tokens, est.tokens) > lim.tpm.value { return OverTokens; }
      }
      if est.cost.Some? {
        if lim.daily.Some? && lim.daily.value > 0.0 {
          if daily + est.cost.value > lim.daily.value { return OverDaily; }
        }
        if lim.monthly.Some? && lim.monthly.value > 0.0 {
          if monthly + est.cost.value > lim.monthly.value { return OverMonthly; }
        }
      }
      active := active[id := Reservation(now, est.tokens, est.cost, wall, wall.MonthKey())];
      return Admitted;
    }

    method Reconcile(id: nat, actualTokens: Option<nat>, actualCost: Option<real>, wall: Date, now: nat)
      modifies this
      ensures Contents() == Settled(Advanced(old(Contents()), wall, now), id, actualTokens, actualCost, now)
    {
      RollPeriods(wall);
      Prune(now);
      ghost var s := Contents();
      assert s == Advanced(old(Contents()), wall, now);
      if id !in active { return; }
      var a := active[id];
      active := active - {id};
      var tokens := actualTokens.Or(a.tokens);
      if Young(a.at, now) {
        minute := minute + [MinuteUse(a.at, tokens)];
      }
      var cost := if actualCost.Some? then actualCost else a.cost;
      if cost.Some? {
        if dailyDay == Some(a.day) { dailySpend := dailySpend + cost.value; }
        if monthlyKey == Some(a.month) { monthlySpend := monthlySpend + cost.value; }
      }
      ghost var r := Settled(s, id, actualTokens, actualCost, now);
      assert minute == r.minute;
      assert active == r.active;
      assert dailySpend == r.dailySpend;
      assert monthlySpend == r.monthlySpend;
    }

    method Cancel(id: nat)
      modifies this`active
      ensures active == old(active) - {id}
    {
      active := active - {id};
    }
  }
}
