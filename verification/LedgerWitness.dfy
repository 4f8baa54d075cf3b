/** A concrete run in which the front-only pruning of the minute deque turns a request away. */
module LedgerWitness {
  import opened Common
  import opened Ledger
  import opened LedgerRuns
  import opened LedgerTheorems
  import opened LedgerLimits

  const TWO_PER_MINUTE := Limits(Some(2), None, None, None)
  const ONE_TOKEN := Estimate(1, None)

  // Two requests are admitted at 0 s and 50 s under a limit of two per minute; the second settles first, so the first
  // ends up behind it in the deque.

  function Res(day: Date, at: nat, tokens: nat): Reservation {
    Reservation(at, tokens, None, day, day.MonthKey())
  }

  function Books(day: Date, q: seq<MinuteUse>, active: map<nat, Reservation>): State {
    State(q, active, Some(day), 0.0, Some(day.MonthKey()), 0.0)
  }

  const DONE := Paid(1, None)

  function Start(day: Date): World { World(EMPTY, map[], [], 0, day) }

  function OneOpen(day: Date): World {
    World(Books(day, [], map[1 := Res(day, 0, 1)]), map[1 := Record(Res(day, 0, 1), Open)], [], 0, day)
  }

  function TwoOpen(day: Date): World {
    World(Books(day, [], map[1 := Res(day, 0, 1), 2 := Res(day, 50 * SECOND, 1)]),
          map[1 := Record(Res(day, 0, 1), Open), 2 := Record(Res(day, 50 * SECOND, 1), Open)], [], 50 * SECOND, day)
  }

  function YoungerSettled(day: Date): World {
    World(Books(day, [MinuteUse(50 * SECOND, 1)], map[1 := Res(day, 0, 1)]),
          map[1 := Record(Res(day, 0, 1), Open), 2 := Record(Res(day, 50 * SECOND, 1), DONE)], [2], 51 * SECOND, day)
  }

  function BothSettled(day: Date): World {
    World(Books(day, [MinuteUse(50 * SECOND, 1), MinuteUse(0, 1)], map[]),
          map[1 := Record(Res(day, 0, 1), DONE), 2 := Record(Res(day, 50 * SECOND, 1), DONE)], [2, 1], 55 * SECOND, day)
  }

  /** With room under the request limit and no other limit, a reservation is admitted. */
  lemma Admits(w: World, id: nat, now: nat)
    requires Inv(w, TWO_PER_MINUTE) && id !in w.history && w.clock <= now && w.ledger.minute == []
    requires |InMinute(w.history, LastMinute(now))| <= 1
    ensures var s := Step(w, TWO_PER_MINUTE, Reserve(id, ONE_TOKEN, w.wall, now));
      s == Admission(Ticked(w, w.wall, now), id, ONE_TOKEN) && Inv(s, TWO_PER_MINUTE)
  {
    var e := Reserve(id, ONE_TOKEN, w.wall, now);
    RpmVerdictIsExact(w, TWO_PER_MINUTE, e);
    assert LedgerStep(w.ledger, TWO_PER_MINUTE, e).1 == Admitted;
    StepKeeps(w, TWO_PER_MINUTE, e);
  }

  lemma FirstIs(day: Date)
    ensures InMinute(Start(day).history, LastMinute(0)) == {}
    ensures Admission(Ticked(Start(day), day, 0), 1, ONE_TOKEN) == OneOpen(day)
  {
  }

  lemma SecondIs(day: Date)
    ensures InMinute(OneOpen(day).history, LastMinute(50 * SECOND)) == {1}
    ensures Admission(Ticked(OneOpen(day), day, 50 * SECOND), 2, ONE_TOKEN) == TwoOpen(day)
  {
    assert Ticked(OneOpen(day), day, 50 * SECOND) == OneOpen(day).(clock := 50 * SECOND);
  }

  lemma Settles(w: World, id: nat, now: nat)
    requires Inv(w, TWO_PER_MINUTE) && w.clock <= now && id in w.ledger.active
    ensures var s := Step(w, TWO_PER_MINUTE, Reconcile(id, None, None, w.wall, now));
      s == Settlement(Ticked(w, w.wall, now), id, None, None) && Inv(s, TWO_PER_MINUTE)
  {
    var e := Reconcile(id, None, None, w.wall, now);
    ReconcileIsSettlement(w, TWO_PER_MINUTE, e);
    StepKeeps(w, TWO_PER_MINUTE, e);
  }

  lemma YoungerIs(day: Date)
    ensures Settlement(Ticked(TwoOpen(day), day, 51 * SECOND), 2, None, None) == YoungerSettled(day)
  {
    var w := TwoOpen(day);
    assert Ticked(w, day, 51 * SECOND) == w.(clock := 51 * SECOND);
    assert w.ledger.active - {2} == map[1 := Res(day, 0, 1)];
    assert Closed(w.history, 2, DONE) == YoungerSettled(day).history;
  }

  lemma OlderIs(day: Date)
    ensures Settlement(Ticked(YoungerSettled(day), day, 55 * SECOND), 1, None, None) == BothSettled(day)
  {
    var w := YoungerSettled(day);
    assert Ticked(w, day, 55 * SECOND) == w.(clock := 55 * SECOND);
    assert w.ledger.active - {1} == map[];
    assert Closed(w.history, 1, DONE) == BothSettled(day).history;
  }

  lemma StaleCount(day: Date)
    ensures var q := BothSettled(day).ledger.minute;
      Pruned(q, 65 * SECOND) == q && StaleAmount(q, 65 * SECOND, Requests(LastMinute(65 * SECOND))) == 1
  {
    var q := BothSettled(day).ledger.minute;
    assert q[..1] == [MinuteUse(50 * SECOND, 1)];
    var m := Requests(LastMinute(65 * SECOND));
    assert StaleAmount(q[..1], 65 * SECOND, m) == StaleAmount(q[..1][..0], 65 * SECOND, m);
  }

  lemma Rejects(day: Date)
    requires Inv(BothSettled(day), TWO_PER_MINUTE)
    ensures InMinute(BothSettled(day).history, LastMinute(65 * SECOND)) == {2}
    ensures var third := Reserve(3, ONE_TOKEN, day, 65 * SECOND);
      LedgerStep(BothSettled(day).ledger, TWO_PER_MINUTE, third).1 == OverRequests
  {
    assert InMinute(BothSettled(day).history, LastMinute(65 * SECOND)) == {2};
    StaleCount(day);
    RpmVerdictIsExact(BothSettled(day), TWO_PER_MINUTE, Reserve(3, ONE_TOKEN, day, 65 * SECOND));
  }

  /** A request settled late outlives its minute behind a younger one and costs a third request its place at 65 s,
      although only one request was admitted in the minute before. */
  lemma StaleEntryCanReject(day: Date)
    ensures var s1 := Step(Start(day), TWO_PER_MINUTE, Reserve(1, ONE_TOKEN, day, 0));
      var s2 := Step(s1, TWO_PER_MINUTE, Reserve(2, ONE_TOKEN, day, 50 * SECOND));
      var s3 := Step(s2, TWO_PER_MINUTE, Reconcile(2, None, None, day, 51 * SECOND));
      var s4 := Step(s3, TWO_PER_MINUTE, Reconcile(1, None, None, day, 55 * SECOND));
      && InMinute(s4.history, LastMinute(65 * SECOND)) == {2}
      && LedgerStep(s4.ledger, TWO_PER_MINUTE, Reserve(3, ONE_TOKEN, day, 65 * SECOND)).1 == OverRequests
  {
    EmptyKeeps(TWO_PER_MINUTE, 0, day);
    FirstIs(day);
    Admits(Start(day), 1, 0);
    SecondIs(day);
    Admits(OneOpen(day), 2, 50 * SECOND);
    Settles(TwoOpen(day), 2, 51 * SECOND);
    YoungerIs(day);
    Settles(YoungerSettled(day), 1, 55 * SECOND);
    OlderIs(day);
    Rejects(day);
  }
}
