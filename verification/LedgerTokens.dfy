/** The token limit over whole runs, with no premise on what settlements use. */
module LedgerTokens {
  import opened Common
  import opened Totals
  import opened Ledger
  import opened LedgerRuns
  import opened LedgerTheorems
  import opened LedgerLimits

  /** What the deque's sum has lost by wrapping when an event reads it for a reservation. */
  function LostAt(s: State, e: Event): nat {
    if e.Reserve? then Lost(Pruned(s.minute, e.now)) else 0
  }

  /** The most that any reservation of the run overlooks. */
  ghost function MostLost(w: World, lim: Limits, es: seq<Event>): nat {
    if es == [] then 0
    else Max(MostLost(w, lim, es[..|es| - 1]), LostAt(Run(w, lim, es[..|es| - 1]).ledger, es[|es| - 1]))
  }

  /** At every reservation of the run the sum over the deque fits in a `u64`. */
  ghost predicate SumsFit(w: World, lim: Limits, es: seq<Event>) {
    forall i :: 0 <= i < |es| && es[i].Reserve? ==> SumFits(Pruned(Run(w, lim, es[..i]).ledger.minute, es[i].now))
  }

  lemma {:induction false} SumsFitGrows(w: World, lim: Limits, es: seq<Event>, e: Event)
    ensures SumsFit(w, lim, es + [e]) <==> SumsFit(w, lim, es) && LostAt(Run(w, lim, es).ledger, e) == 0
  {
    var all := es + [e];
    assert all[..|es|] == es && all[|es|] == e;
    forall i | 0 <= i < |es| ensures all[i] == es[i] && all[..i] == es[..i] {
    }
  }

  /** Nothing is overlooked exactly when no sum wraps. */
  lemma {:induction false} NothingLostIff(w: World, lim: Limits, es: seq<Event>)
    ensures MostLost(w, lim, es) == 0 <==> SumsFit(w, lim, es)
  {
    if es != [] {
      var before, e := es[..|es| - 1], es[|es| - 1];
      NothingLostIff(w, lim, before);
      assert es == before + [e];
      SumsFitGrows(w, lim, before, e);
    }
  }

  /** No minute keeps more tokens than this, as far as the reservations covered them. */
  ghost predicate TokensKept(h: History, limit: real) {
    forall start: int :: KeptTotal(h, Tokens(start)) <= limit
  }

  lemma AdmissionTokens(t: World, lim: Limits, id: nat, est: Estimate, limit: real)
    requires Sound(t) && ValidLimits(lim) && id !in t.history && lim.tpm.Some? && lim.tpm.value > 0
    requires t.ledger.dailyDay.Some? && t.ledger.monthlyKey.Some?
    requires ReserveVerdict(lim, est, Reading(t.ledger, t.wall, t.clock)) == Admitted
    requires TokensKept(t.history, limit) && limit >= (lim.tpm.value + Lost(t.ledger.minute)) as real
    ensures TokensKept(Admission(t, id, est).history, limit)
  {
    var res := Reservation(t.clock, est.tokens, est.cost, t.wall, t.wall.MonthKey());
    forall start: int ensures KeptTotal(Opened(t.history, id, res), Tokens(start)) <= limit {
      OpenedKept(t.history, id, res, Tokens(start));
      if Held(Record(res, Open), Tokens(start)) != 0.0 {
        AdmissionFits(t, lim, est, Record(res, Open), Tokens(start));
      }
    }
  }

  lemma ClosingTokens(h: History, id: nat, f: Fate, limit: real)
    requires TokensKept(h, limit) && id in h && h[id].fate.Open? && (f.Paid? || f.Cancelled?)
    ensures TokensKept(Closed(h, id, f), limit)
  {
    var c := Closed(h, id, f);
    forall start: int ensures KeptTotal(c, Tokens(start)) <= limit {
      TotalMono(KeptMap(c, Tokens(start)), KeptMap(h, Tokens(start)));
    }
  }

  lemma StepTokens(w: World, lim: Limits, e: Event, limit: real)
    requires Inv(w, lim) && ValidLimits(lim) && Allowed(w, e) && lim.tpm.Some? && lim.tpm.value > 0
    requires TokensKept(w.history, limit) && limit >= (lim.tpm.value + LostAt(w.ledger, e)) as real
    ensures TokensKept(HistoryStep(w, lim, e), limit)
  {
    if e.Reserve? {
      TickSound(w, e.wall, e.now);
      if LedgerStep(w.ledger, lim, e).1 == Admitted {
        AdmissionTokens(Ticked(w, e.wall, e.now), lim, e.id, e.est, limit);
      }
    } else if HistoryStep(w, lim, e) != w.history {
      ClosingTokens(w.history, e.id, HistoryStep(w, lim, e)[e.id].fate, limit);
    }
  }

  lemma {:induction false} RunTokens(w: World, lim: Limits, es: seq<Event>, limit: real)
    requires Inv(w, lim) && ValidLimits(lim) && AllAllowed(w, lim, es) && lim.tpm.Some? && lim.tpm.value > 0
    requires TokensKept(w.history, limit) && limit >= (lim.tpm.value + MostLost(w, lim, es)) as real
    ensures TokensKept(Run(w, lim, es).history, limit)
  {
    if es != [] {
      RunTokens(w, lim, es[..|es| - 1], limit);
      RunKeeps(w, lim, es[..|es| - 1]);
      StepTokens(Run(w, lim, es[..|es| - 1]), lim, es[|es| - 1], limit);
    }
  }

  /** TPM with no premise: a minute is charged at most the limit, plus the amount by which settlements exceeded their
      own reservations, plus the most that a wrapped sum hid from any reservation. The last is zero exactly when no sum
      wraps. */
  lemma TokensWithinExcess(w: World, lim: Limits, es: seq<Event>, start: int)
    requires Inv(w, lim) && ValidLimits(lim) && AllAllowed(w, lim, es) && lim.tpm.Some? && lim.tpm.value > 0
    requires TokensKept(w.history, lim.tpm.value as real)
    ensures var h := Run(w, lim, es).history;
      BilledTotal(h, Tokens(start)) <=
      lim.tpm.value as real + ExcessTotal(h, Tokens(start)) + MostLost(w, lim, es) as real
    ensures MostLost(w, lim, es) == 0 <==> SumsFit(w, lim, es)
  {
    RunTokens(w, lim, es, (lim.tpm.value + MostLost(w, lim, es)) as real);
    BilledSplits(Run(w, lim, es).history, Tokens(start));
    NothingLostIff(w, lim, es);
  }

  lemma NothingKept(limit: real)
    requires limit >= 0.0
    ensures TokensKept(map[], limit)
  {
    forall start: int ensures KeptTotal(map[], Tokens(start)) <= limit {
      assert KeptMap(map[], Tokens(start)) == map[];
    }
  }
}
