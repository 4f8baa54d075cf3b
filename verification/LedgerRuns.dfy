/** Whole runs of the admission ledger against the history of everything it ever admitted. */
module LedgerRuns {
  import opened Common
  import opened Totals
  import opened Ledger

  // ---------- Histories and what is charged to them ----------

  datatype Fate = Open | Paid(tokens: nat, cost: Option<real>) | Cancelled
  datatype Record = Record(res: Reservation, fate: Fate)
  type History = map<nat, Record>

  /** A quantity that a limit speaks about: requests or tokens in the minute starting at `start`, or the spend
      of one calendar day or month. Every minute, every day and every month is a meter. */
  datatype Meter = Requests(start: int) | Tokens(start: int) | Daily(day: Date) | Monthly(month: Month)

  predicate Covers(m: Meter, r: Reservation) {
    match m
    case Requests(start) => start <= r.at < start + MINUTE_WINDOW
    case Tokens(start) => start <= r.at < start + MINUTE_WINDOW
    case Daily(day) => r.day == day
    case Monthly(month) => r.month == month
  }

  /** What the reservation set aside at admission. An unknown cost sets nothing aside. */
  function Held(r: Record, m: Meter): real {
    if !Covers(m, r.res) then 0.0
    else match m
      case Requests(_) => 1.0
      case Tokens(_) => r.res.tokens as real
      case Daily(_) => CostOr0(r.res.cost)
      case Monthly(_) => CostOr0(r.res.cost)
  }

  /** What the request is charged: its final figures once settled, its reservation while open, nothing if cancelled. */
  function Billed(r: Record, m: Meter): real {
    if !Covers(m, r.res) || r.fate.Cancelled? then 0.0
    else match m
      case Requests(_) => 1.0
      case Tokens(_) => if r.fate.Paid? then r.fate.tokens as real else r.res.tokens as real
      case Daily(_) => CostOr0(if r.fate.Paid? then r.fate.cost else r.res.cost)
      case Monthly(_) => CostOr0(if r.fate.Paid? then r.fate.cost else r.res.cost)
  }

  /** The charged amount as far as the reservation covered it, and the rest. */
  function Kept(r: Record, m: Meter): real { MinReal(Billed(r, m), Held(r, m)) }
  function Excess(r: Record, m: Meter): real { Billed(r, m) - Kept(r, m) }

  ghost function BilledMap(h: History, m: Meter): map<nat, real> { map id | id in h :: Billed(h[id], m) }
  ghost function KeptMap(h: History, m: Meter): map<nat, real> { map id | id in h :: Kept(h[id], m) }
  ghost function ExcessMap(h: History, m: Meter): map<nat, real> { map id | id in h :: Excess(h[id], m) }
  ghost function PaidMap(h: History, m: Meter): map<nat, real> {
    map id | id in h :: if h[id].fate.Paid? then Billed(h[id], m) else 0.0
  }

  ghost function BilledTotal(h: History, m: Meter): real { Total(BilledMap(h, m)) }
  ghost function KeptTotal(h: History, m: Meter): real { Total(KeptMap(h, m)) }
  ghost function ExcessTotal(h: History, m: Meter): real { Total(ExcessMap(h, m)) }
  ghost function PaidTotal(h: History, m: Meter): real { Total(PaidMap(h, m)) }

  function LimitOf(lim: Limits, m: Meter): Option<real> {
    match m
    case Requests(_) => if lim.rpm.Some? && lim.rpm.value > 0 then Some(lim.rpm.value as real) else None
    case Tokens(_) => if lim.tpm.Some? && lim.tpm.value > 0 then Some(lim.tpm.value as real) else None
    case Daily(_) => if lim.daily.Some? && lim.daily.value > 0.0 then lim.daily else None
    case Monthly(_) => if lim.monthly.Some? && lim.monthly.value > 0.0 then lim.monthly else None
  }

  /** Limits are `i64` values. */
  predicate ValidLimits(lim: Limits) {
    (lim.rpm.Some? ==> lim.rpm.value <= I64_MAX) && (lim.tpm.Some? ==> lim.tpm.value <= I64_MAX)
  }

  /** No settled request used more tokens than it reserved. */
  predicate TokensHonest(h: History) {
    forall id :: id in h && h[id].fate.Paid? ==> h[id].fate.tokens <= h[id].res.tokens
  }

  // ---------- Runs ----------

  datatype World = World(ledger: State, history: History, order: seq<nat>, clock: nat, wall: Date)

  datatype Event =
    | Reserve(id: nat, est: Estimate, wall: Date, now: nat)
    | Reconcile(id: nat, tokens: Option<nat>, cost: Option<real>, wall: Date, now: nat)
    | Cancel(id: nat)
    | Check(wall: Date, now: nat)

  /** Time never steps back, reservation ids are fresh, and costs are nonnegative. */
  predicate Allowed(w: World, e: Event) {
    && (!e.Cancel? ==> DateLe(w.wall, e.wall) && w.clock <= e.now)
    && (e.Reserve? ==> e.id !in w.history && CostOr0(e.est.cost) >= 0.0)
    && (e.Reconcile? ==> CostOr0(e.cost) >= 0.0)
  }

  ghost function LedgerStep(s: State, lim: Limits, e: Event): (State, Verdict) {
    match e
    case Reserve(id, est, wall, now) =>
      var a := Advanced(s, wall, now);
      var v := ReserveVerdict(lim, est, Reading(a, wall, now));
      (if v == Admitted then Reserved(a, id, est, wall, now) else a, v)
    case Reconcile(id, tokens, cost, wall, now) => (Settled(Advanced(s, wall, now), id, tokens, cost, now), Admitted)
    case Cancel(id) => (s.(active := s.active - {id}), Admitted)
    case Check(wall, now) =>
      var a := Advanced(s, wall, now);
      (a, CheckVerdict(lim, Reading(a, wall, now)))
  }

  /** The ledger object follows the run: each event is one call of its methods, with this effect and verdict. */
  method Perform(ledger: KeyLedger, lim: Limits, e: Event) returns (v: Verdict)
    requires |ledger.minute| <= U64_MAX
    modifies ledger
    ensures (ledger.Contents(), v) == LedgerStep(old(ledger.Contents()), lim, e)
  {
    v := Admitted;
    match e {
      case Reserve(id, est, wall, now) => v := ledger.Reserve(id, lim, est, wall, now);
      case Reconcile(id, tokens, cost, wall, now) => ledger.Reconcile(id, tokens, cost, wall, now);
      case Cancel(id) => ledger.Cancel(id);
      case Check(wall, now) => v := ledger.CheckCurrent(lim, wall, now);
    }
  }

  function Closed(h: History, id: nat, f: Fate): History {
    if id in h && h[id].fate.Open? then h[id := h[id].(fate := f)] else h
  }

  function FinalCost(cost: Option<real>, reserved: Option<real>): Option<real> {
    if cost.Some? then cost else reserved
  }

  /** The history after an event: admissions are recorded, settlements and cancellations close a record. */
  ghost function HistoryStep(w: World, lim: Limits, e: Event): History {
    match e
    case Reserve(id, est, wall, now) =>
      if LedgerStep(w.ledger, lim, e).1 == Admitted
      then w.history[id := Record(Reservation(now, est.tokens, est.cost, wall, wall.MonthKey()), Open)]
      else w.history
    case Reconcile(id, tokens, cost, _, _) =>
      if id in w.history && w.history[id].fate.Open?
      then Closed(w.history, id, Paid(tokens.Or(w.history[id].res.tokens), FinalCost(cost, w.history[id].res.cost)))
      else w.history
    case Cancel(id) => Closed(w.history, id, Cancelled)
    case Check(_, _) => w.history
  }

  /** Prunes the deque and the list of ids of its entries alike. */
  function Ticked(w: World, wall: Date, now: nat): World {
    var a := Advanced(w.ledger, wall, now);
    var drop := |w.ledger.minute| - |a.minute|;
    World(a, w.history, if 0 <= drop <= |w.order| then w.order[drop..] else w.order, now, wall)
  }

  ghost function Step(w: World, lim: Limits, e: Event): World {
    if e.Cancel? then w.(ledger := LedgerStep(w.ledger, lim, e).0, history := HistoryStep(w, lim, e))
    else
      var t := Ticked(w, e.wall, e.now);
      var joins := e.Reconcile? && e.id in t.ledger.active && Young(t.ledger.active[e.id].at, e.now);
      var order := if joins then t.order + [e.id] else t.order;
      World(LedgerStep(w.ledger, lim, e).0, HistoryStep(w, lim, e), order, e.now, e.wall)
  }

  ghost function Run(w: World, lim: Limits, es: seq<Event>): World {
    if es == [] then w else Step(Run(w, lim, es[..|es| - 1]), lim, es[|es| - 1])
  }

  ghost predicate AllAllowed(w: World, lim: Limits, es: seq<Event>) {
    es == [] || (AllAllowed(w, lim, es[..|es| - 1]) && Allowed(Run(w, lim, es[..|es| - 1]), es[|es| - 1]))
  }

  // ---------- The invariant ----------

  predicate RecordsSane(w: World) {
    forall id :: id in w.history ==>
      var r := w.history[id];
      && r.res.at <= w.clock && DateLe(r.res.day, w.wall) && r.res.month == r.res.day.MonthKey()
      && CostOr0(r.res.cost) >= 0.0 && (r.fate.Paid? ==> CostOr0(r.fate.cost) >= 0.0)
  }

  predicate ActiveMatches(w: World) {
    && (forall id :: id in w.ledger.active ==> id in w.history && w.history[id] == Record(w.ledger.active[id], Open))
    && (forall id :: id in w.history && w.history[id].fate.Open? ==> id in w.ledger.active)
  }

  predicate Distinct(s: seq<nat>) {
    forall i, j :: 0 <= i < j < |s| ==> s[i] != s[j]
  }

  predicate Tagged(q: seq<MinuteUse>, order: seq<nat>, h: History) {
    && |order| == |q|
    && forall i :: 0 <= i < |q| ==>
      order[i] in h && h[order[i]].fate.Paid? && q[i] == MinuteUse(h[order[i]].res.at, h[order[i]].fate.tokens)
  }

  /** The deque never under-counts: every settled request of the last minute still has its own entry. */
  predicate QueueComplete(w: World) {
    && Distinct(w.order)
    && Tagged(w.ledger.minute, w.order, w.history)
    && forall id :: id in w.history && w.history[id].fate.Paid? && Young(w.history[id].res.at, w.clock) ==>
         id in w.order
  }

  /** The accumulators hold exactly what has been paid in the period they are for. */
  ghost predicate SpendComplete(w: World) {
    var s := w.ledger;
    && s.dailySpend >= 0.0 && s.monthlySpend >= 0.0
    && (if s.dailyDay.Some?
        then s.dailyDay.value == w.wall && PaidTotal(w.history, Daily(w.wall)) == s.dailySpend
        else w.history == map[])
    && (if s.monthlyKey.Some?
        then
          && s.monthlyKey.value == w.wall.MonthKey()
          && PaidTotal(w.history, Monthly(w.wall.MonthKey())) == s.monthlySpend
        else w.history == map[])
  }

  ghost predicate Sound(w: World) {
    RecordsSane(w) && ActiveMatches(w) && QueueComplete(w) && SpendComplete(w)
  }

  ghost function OpenTokens(s: State, now: nat): real { Total(YoungTokens(s.active, now)) }

  /** Deque and open reservations together stay within the token limit, so the deque's plain sum cannot wrap. */
  ghost predicate TokenRoom(w: World, lim: Limits) {
    LimitOf(lim, Tokens(0)).Some? && TokensHonest(w.history) ==>
      QueueTokens(w.ledger.minute) as real + OpenTokens(w.ledger, w.clock) <= LimitOf(lim, Tokens(0)).value
  }

  ghost predicate MeterWithin(h: History, lim: Limits, m: Meter) {
    LimitOf(lim, m).Some? && (m.Tokens? ==> TokensHonest(h)) ==> KeptTotal(h, m) <= LimitOf(lim, m).value
  }

  ghost predicate Within(h: History, lim: Limits) {
    forall m :: MeterWithin(h, lim, m)
  }

  ghost predicate Inv(w: World, lim: Limits) {
    Sound(w) && TokenRoom(w, lim) && Within(w.history, lim)
  }
}
