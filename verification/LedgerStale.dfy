/** How stale an entry of the minute deque can get, although pruning looks at the front only. */
module LedgerStale {
  import opened Common
  import opened Totals
  import opened Ledger
  import opened LedgerRuns
  import opened LedgerTheorems
  import opened LedgerLimits

  /** An entry is less than a minute younger than any entry behind it. */
  predicate Spread(q: seq<MinuteUse>) {
    forall i, j :: 0 <= i < j < |q| ==> q[i].at < q[j].at + MINUTE_WINDOW
  }

  /** Every entry is from the last two minutes. */
  predicate Recent(q: seq<MinuteUse>, now: nat) {
    forall i :: 0 <= i < |q| ==> now < q[i].at + 2 * MINUTE_WINDOW
  }

  lemma PrunedIsRecent(q: seq<MinuteUse>, now: nat)
    requires Spread(q)
    ensures Spread(Pruned(q, now)) && Recent(Pruned(q, now), now)
  {
    var n := PrunedIsSuffix(q, now);
    forall i | n <= i < |q| ensures now < q[i].at + 2 * MINUTE_WINDOW {
      assert i > n ==> q[n].at < q[i].at + MINUTE_WINDOW;
    }
  }

  lemma PushKeepsSpread(q: seq<MinuteUse>, u: MinuteUse, now: nat)
    requires Spread(q) && Recent(q, now) && Young(u.at, now)
    requires forall i :: 0 <= i < |q| ==> q[i].at <= now
    ensures Spread(q + [u]) && Recent(q + [u], now)
  {
  }

  lemma EntriesArePast(w: World, i: nat)
    requires Sound(w) && i < |w.ledger.minute|
    ensures w.ledger.minute[i].at <= w.clock
  {
    assert w.order[i] in w.history;
  }

  predicate Tidy(w: World) {
    Spread(w.ledger.minute) && Recent(w.ledger.minute, w.clock)
  }

  lemma TickTidy(w: World, wall: Date, now: nat)
    requires Tidy(w)
    ensures Tidy(Ticked(w, wall, now))
  {
    PrunedIsRecent(w.ledger.minute, now);
  }

  lemma SettlementTidy(t: World, id: nat, tokens: Option<nat>, cost: Option<real>)
    requires Sound(t) && Tidy(t) && id in t.ledger.active
    ensures Tidy(Settlement(t, id, tokens, cost))
  {
    var a := t.ledger.active[id];
    if Young(a.at, t.clock) {
      forall i | 0 <= i < |t.ledger.minute| ensures t.ledger.minute[i].at <= t.clock { EntriesArePast(t, i); }
      PushKeepsSpread(t.ledger.minute, MinuteUse(a.at, tokens.Or(a.tokens)), t.clock);
    }
  }

  lemma StepTidy(w: World, lim: Limits, e: Event)
    requires Sound(w) && Allowed(w, e) && Tidy(w)
    ensures Tidy(Step(w, lim, e))
  {
    if e.Reconcile? {
      var t := Ticked(w, e.wall, e.now);
      TickSound(w, e.wall, e.now);
      TickTidy(w, e.wall, e.now);
      ReconcileIsSettlement(w, lim, e);
      if e.id in t.ledger.active { SettlementTidy(t, e.id, e.tokens, e.cost); }
    } else if !e.Cancel? {
      TickTidy(w, e.wall, e.now);
    }
  }

  /** After any run every entry of the deque, stale ones included, is from the two minutes before the last operation
      that read the clock. */
  lemma {:induction false} EntriesAreRecent(w: World, lim: Limits, es: seq<Event>)
    requires Inv(w, lim) && ValidLimits(lim) && AllAllowed(w, lim, es) && Tidy(w)
    ensures Tidy(Run(w, lim, es))
  {
    if es != [] {
      var before := es[..|es| - 1];
      EntriesAreRecent(w, lim, before);
      RunKeeps(w, lim, before);
      StepTidy(Run(w, lim, before), lim, es[|es| - 1]);
    }
  }

  // ---------- What a rejection takes ----------

  /** Requests admitted and not cancelled in the two minutes that end now. */
  function InTwoMinutes(h: History, now: nat): set<nat> {
    set id | id in h && !h[id].fate.Cancelled? && h[id].res.at <= now < h[id].res.at + 120 * SECOND
  }

  function Ids(order: seq<nat>): set<nat> {
    set id | id in order
  }

  lemma {:induction false} DistinctCount(order: seq<nat>)
    requires Distinct(order)
    ensures |Ids(order)| == |order|
  {
    if order != [] {
      var n := |order| - 1;
      DistinctCount(order[..n]);
      assert Ids(order) == Ids(order[..n]) + {order[n]};
    }
  }

  function YoungIds(s: State, now: nat): set<nat> {
    set id | id in s.active && Young(s.active[id].at, now)
  }

  lemma QueuedIsRecent(w: World, id: nat)
    requires Sound(w) && Recent(w.ledger.minute, w.clock) && id in w.order
    ensures id in InTwoMinutes(w.history, w.clock)
  {
    var i :| 0 <= i < |w.order| && w.order[i] == id;
    assert w.ledger.minute[i].at == w.history[id].res.at;
  }

  /** Everything the request reading counts was admitted in the last two minutes. */
  lemma CountedInTwoMinutes(w: World)
    requires Sound(w) && Recent(w.ledger.minute, w.clock)
    ensures Counted(w, Requests(0)) <= |InTwoMinutes(w.history, w.clock)| as real
  {
    var queued, open, all := Ids(w.order), YoungIds(w.ledger, w.clock), InTwoMinutes(w.history, w.clock);
    DistinctCount(w.order);
    TotalCounts(YoungOnes(w.ledger.active, w.clock), open);
    assert open <= all && queued !! open by {
      forall id | id in open ensures id in all && id !in queued { assert w.history[id].fate.Open?; }
    }
    assert queued <= all by {
      forall id | id in queued ensures id in all { QueuedIsRecent(w, id); }
    }
    assert |queued + open| == |queued| + |open|;
    SubsetIsSmaller(queued + open, all);
  }

  lemma RejectedInTwoMinutes(w: World, lim: Limits, e: Event)
    requires Sound(w) && ValidLimits(lim) && Allowed(w, e) && e.Reserve? && Spread(w.ledger.minute)
    requires LedgerStep(w.ledger, lim, e).1 == OverRequests
    ensures lim.rpm.Some? && |InTwoMinutes(w.history, e.now)| >= lim.rpm.value
  {
    var t := Ticked(w, e.wall, e.now);
    TickSound(w, e.wall, e.now);
    PrunedIsRecent(w.ledger.minute, e.now);
    CountedInTwoMinutes(t);
    Unsaturated(|t.ledger.minute|, YoungOnes(t.ledger.active, e.now), 1.0, lim.rpm.value);
  }

  /** A request is turned away for its rate only if at least rpm requests were admitted, and not cancelled, in the two
      minutes before it, in every run. */
  lemma RejectionTakesRequests(w: World, lim: Limits, es: seq<Event>, e: Event)
    requires Inv(w, lim) && ValidLimits(lim) && AllAllowed(w, lim, es) && Tidy(w)
    requires Allowed(Run(w, lim, es), e) && e.Reserve?
    requires LedgerStep(Run(w, lim, es).ledger, lim, e).1 == OverRequests
    ensures lim.rpm.Some? && |InTwoMinutes(Run(w, lim, es).history, e.now)| >= lim.rpm.value
  {
    RunKeeps(w, lim, es);
    EntriesAreRecent(w, lim, es);
    RejectedInTwoMinutes(Run(w, lim, es), lim, e);
  }
}
