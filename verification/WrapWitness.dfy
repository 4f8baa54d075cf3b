/** A concrete run in which the wrapping sum of the minute deque admits more tokens than the limit. */
module WrapWitness {
  import opened Common
  import opened Totals
  import opened Ledger
  import opened LedgerRuns
  import opened LedgerTheorems
  import opened LedgerLimits
  import W = LedgerWitness

  // Two requests of five tokens are admitted under a limit of ten per minute. They settle at 2^64 - 1 tokens and one
  // token; the deque's sum wraps to zero, and ten more tokens are admitted.

  const TEN_PER_MINUTE := Limits(None, Some(10), None, None)

  function OneOpen(day: Date): World {
    World(W.Books(day, [], map[1 := W.Res(day, 0, 5)]), map[1 := Record(W.Res(day, 0, 5), Open)], [], 0, day)
  }

  function TwoOpen(day: Date): World {
    World(W.Books(day, [], map[1 := W.Res(day, 0, 5), 2 := W.Res(day, 0, 5)]),
          map[1 := Record(W.Res(day, 0, 5), Open), 2 := Record(W.Res(day, 0, 5), Open)], [], 0, day)
  }

  function OneSettled(day: Date): World {
    World(W.Books(day, [MinuteUse(0, U64_MAX)], map[2 := W.Res(day, 0, 5)]),
          map[1 := Record(W.Res(day, 0, 5), Paid(U64_MAX, None)), 2 := Record(W.Res(day, 0, 5), Open)], [1], 0, day)
  }

  function BothSettled(day: Date): World {
    World(W.Books(day, [MinuteUse(0, U64_MAX), MinuteUse(0, 1)], map[]),
          map[1 := Record(W.Res(day, 0, 5), Paid(U64_MAX, None)), 2 := Record(W.Res(day, 0, 5), Paid(1, None))],
          [1, 2], 0, day)
  }

  function Overfull(day: Date): World {
    World(W.Books(day, [MinuteUse(0, U64_MAX), MinuteUse(0, 1)], map[3 := W.Res(day, 0, 10)]),
          BothSettled(day).history[3 := Record(W.Res(day, 0, 10), Open)], [1, 2], 0, day)
  }

  /** With `open` tokens reserved and a deque whose sum reads `read`, an estimate that fits is admitted. */
  lemma Admits(w: World, id: nat, tokens: nat, read: nat, open: real)
    requires w.wall == w.ledger.dailyDay.Or(w.wall) && w.wall.MonthKey() == w.ledger.monthlyKey.Or(w.wall.MonthKey())
    requires w.clock == 0 && |w.order| == |w.ledger.minute|
    requires QueueTokens(w.ledger.minute) % (U64_MAX + 1) == read && OpenTokens(w.ledger, 0) == open
    requires read as real + open + tokens as real <= 10.0
    requires forall i :: 0 <= i < |w.ledger.minute| ==> Young(w.ledger.minute[i].at, 0)
    ensures Step(w, TEN_PER_MINUTE, Reserve(id, Estimate(tokens, None), w.wall, 0)) ==
      Admission(Ticked(w, w.wall, 0), id, Estimate(tokens, None))
  {
    Unsaturated(read, YoungTokens(w.ledger.active, 0), tokens as real, 10);
    assert Ticked(w, w.wall, 0).ledger.minute == w.ledger.minute;
  }

  lemma OpenNone()
    ensures OpenTokens(EMPTY, 0) == 0.0
  {
    assert YoungTokens(EMPTY.active, 0) == map[];
  }

  lemma OpenFive(day: Date)
    ensures OpenTokens(OneOpen(day).ledger, 0) == 5.0
  {
    TotalInsert(map[], 1, 5.0);
    assert YoungTokens(OneOpen(day).ledger.active, 0) == map[1 := 5.0];
  }

  lemma WrappedSum(day: Date)
    ensures QueueTokens(BothSettled(day).ledger.minute) == U64_MAX + 1
    ensures OpenTokens(BothSettled(day).ledger, 0) == 0.0
  {
    var a, b := [MinuteUse(0, U64_MAX)], [MinuteUse(0, 1)];
    assert BothSettled(day).ledger.minute == a + b;
    QueueTokensSplit(a, b);
    assert QueueTokens(a) == QueueTokens([]) + U64_MAX && QueueTokens(b) == QueueTokens([]) + 1;
    assert YoungTokens(BothSettled(day).ledger.active, 0) == map[];
  }

  lemma Reservations(day: Date)
    ensures Step(W.Start(day), TEN_PER_MINUTE, Reserve(1, Estimate(5, None), day, 0)) == OneOpen(day)
    ensures Step(OneOpen(day), TEN_PER_MINUTE, Reserve(2, Estimate(5, None), day, 0)) == TwoOpen(day)
  {
    OpenNone();
    Admits(W.Start(day), 1, 5, 0, 0.0);
    OpenFive(day);
    Admits(OneOpen(day), 2, 5, 0, 5.0);
  }

  /** Nothing is stale, and the reservation is open. */
  predicate Ready(w: World, id: nat) {
    Ticked(w, w.wall, 0) == w && ActiveMatches(w) && id in w.ledger.active
  }

  /** Then settling the reservation is all that happens. */
  lemma Settles(w: World, id: nat, tokens: nat, after: World)
    requires Ready(w, id) && Settlement(w, id, Some(tokens), None) == after
    ensures Step(w, TEN_PER_MINUTE, Reconcile(id, Some(tokens), None, w.wall, 0)) == after
  {
    ReconcileIsSettlement(w, TEN_PER_MINUTE, Reconcile(id, Some(tokens), None, w.wall, 0));
  }

  lemma FirstReady(day: Date)
    ensures Ready(TwoOpen(day), 1)
  {
    assert Ticked(TwoOpen(day), day, 0) == TwoOpen(day);
  }

  lemma SecondReady(day: Date)
    ensures Ready(OneSettled(day), 2)
  {
    assert Ticked(OneSettled(day), day, 0) == OneSettled(day);
  }

  lemma FirstSettled(day: Date)
    ensures Settlement(TwoOpen(day), 1, Some(U64_MAX), None) == OneSettled(day)
  {
    var w := TwoOpen(day);
    assert w.ledger.active - {1} == map[2 := W.Res(day, 0, 5)];
    assert Closed(w.history, 1, Paid(U64_MAX, None)) == OneSettled(day).history;
  }

  lemma SecondSettled(day: Date)
    ensures Settlement(OneSettled(day), 2, Some(1), None) == BothSettled(day)
  {
    var w := OneSettled(day);
    assert w.ledger.active - {2} == map[];
    assert Closed(w.history, 2, Paid(1, None)) == BothSettled(day).history;
  }

  lemma FirstSettlement(day: Date)
    ensures Step(TwoOpen(day), TEN_PER_MINUTE, Reconcile(1, Some(U64_MAX), None, day, 0)) == OneSettled(day)
  {
    FirstReady(day);
    FirstSettled(day);
    Settles(TwoOpen(day), 1, U64_MAX, OneSettled(day));
  }

  lemma SecondSettlement(day: Date)
    ensures Step(OneSettled(day), TEN_PER_MINUTE, Reconcile(2, Some(1), None, day, 0)) == BothSettled(day)
  {
    SecondReady(day);
    SecondSettled(day);
    Settles(OneSettled(day), 2, 1, BothSettled(day));
  }

  lemma ThirdReservation(day: Date)
    ensures Step(BothSettled(day), TEN_PER_MINUTE, Reserve(3, Estimate(10, None), day, 0)) == Overfull(day)
  {
    WrappedSum(day);
    Admits(BothSettled(day), 3, 10, 0, 0.0);
  }

  /** Even what the reservations covered then exceeds the limit. */
  lemma OverfullKept(day: Date)
    ensures KeptTotal(Overfull(day).history, Tokens(0)) == 16.0
  {
    var kept := map[1 := 5.0, 2 := 1.0];
    assert KeptMap(Overfull(day).history, Tokens(0)) == kept[3 := 10.0];
    TotalInsert(kept, 3, 10.0);
    TotalInsert(map[1 := 5.0], 2, 1.0);
    TotalInsert(map[], 1, 5.0);
  }

  /** The premise is needed: once the sum has wrapped, a minute is charged more than the limit plus all excess. */
  lemma WrappingSumAdmits(day: Date)
    ensures var s1 := Step(W.Start(day), TEN_PER_MINUTE, Reserve(1, Estimate(5, None), day, 0));
      var s2 := Step(s1, TEN_PER_MINUTE, Reserve(2, Estimate(5, None), day, 0));
      var s3 := Step(s2, TEN_PER_MINUTE, Reconcile(1, Some(U64_MAX), None, day, 0));
      var s4 := Step(s3, TEN_PER_MINUTE, Reconcile(2, Some(1), None, day, 0));
      var s5 := Step(s4, TEN_PER_MINUTE, Reserve(3, Estimate(10, None), day, 0));
      BilledTotal(s5.history, Tokens(0)) > 10.0 + ExcessTotal(s5.history, Tokens(0))
  {
    Reservations(day);
    FirstSettlement(day);
    SecondSettlement(day);
    ThirdReservation(day);
    OverfullKept(day);
    BilledSplits(Overfull(day).history, Tokens(0));
  }
}
