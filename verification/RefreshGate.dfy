/** The account-scoped rotation gate of `src/credential_refresh.rs` as a protocol: a lock, a generation counter and
    the last reactive result, under any interleaving of callers. */
module RefreshGate {
  import opened Common

  datatype AuthResult = Renewed(ok: bool) | Refused(code: string)

  /** Where a caller stands. `gen` is the generation it loaded before queueing for the lock; `rotated` says whether
      it has called `rotate`. */
  datatype Phase =
    | Idle
    | Loaded(gen: nat)                                             // waiting for the lock
    | Inside(gen: nat)                                             // holds the lock, has not compared generations yet
    | Flying(gen: nat, rotated: bool)                              // resolving or rotating
    | Posted(gen: nat, rotated: bool, result: AuthResult)          // result written, generation not bumped yet
    | Landed(gen: nat, rotated: bool, result: AuthResult)          // generation bumped, returned
    | Reused(gen: nat, result: AuthResult, bump: int)              // returned the result of the flight of that bump
    | Renewing                                                     // holds the lock for a scheduled flight or a resolve
    | Cleared                                                      // scheduled rotation succeeded, old result cleared

  /** One bump of the generation counter. */
  datatype Bump = AuthBump(caller: nat, result: AuthResult) | ScheduledBump(caller: nat)

  datatype Gate = Gate(
    lock: Option<nat>, generation: nat, last: Option<AuthResult>, phase: map<nat, Phase>, bumps: seq<Bump>)

  datatype Move =
    | Load(c: nat)
    | Acquire(c: nat)
    | Compare(c: nat)
    | CallRotate(c: nat)
    | Post(c: nat, result: AuthResult)
    | BumpAuth(c: nat)
    | Enter(c: nat)
    | Clear(c: nat)
    | BumpScheduled(c: nat)
    | GiveUp(c: nat)

  function PhaseOf(g: Gate, c: nat): Phase {
    if c in g.phase then g.phase[c] else Idle
  }

  /** The atomic steps of the three paths. Every write happens under the lock; only the first load does not. */
  predicate Enabled(g: Gate, m: Move) {
    var p := PhaseOf(g, m.c);
    match m
    case Load(_) => p.Idle?
    case Acquire(_) => p.Loaded? && g.lock.None?
    case Compare(_) => p.Inside?
    case CallRotate(_) => p.Flying? && !p.rotated
    case Post(_, _) => p.Flying?
    case BumpAuth(_) => p.Posted?
    case Enter(_) => p.Idle? && g.lock.None?
    case Clear(_) => p.Renewing?
    case BumpScheduled(_) => p.Cleared?
    case GiveUp(_) => p.Renewing?
  }

  /** A move that is not enabled changes nothing, so every list of moves is one interleaving. */
  function Step(g: Gate, m: Move): Gate {
    if !Enabled(g, m) then g else
    var p := PhaseOf(g, m.c);
    match m
    case Load(c) => g.(phase := g.phase[c := Loaded(g.generation)])
    case Acquire(c) => g.(lock := Some(c), phase := g.phase[c := Inside(p.gen)])
    case Compare(c) =>
      if g.generation != p.gen && g.last.Some?
      then g.(lock := None, phase := g.phase[c := Reused(p.gen, g.last.value, |g.bumps| - 1)])
      else g.(phase := g.phase[c := Flying(p.gen, false)])
    case CallRotate(c) => g.(phase := g.phase[c := Flying(p.gen, true)])
    case Post(c, result) => g.(last := Some(result), phase := g.phase[c := Posted(p.gen, p.rotated, result)])
    case BumpAuth(c) =>
      g.(lock := None, generation := g.generation + 1, bumps := g.bumps + [AuthBump(c, p.result)],
         phase := g.phase[c := Landed(p.gen, p.rotated, p.result)])
    case Enter(c) => g.(lock := Some(c), phase := g.phase[c := Renewing])
    case Clear(c) => g.(last := None, phase := g.phase[c := Cleared])
    case BumpScheduled(c) =>
      g.(lock := None, generation := g.generation + 1, bumps := g.bumps + [ScheduledBump(c)],
         phase := g.phase[c := Idle])
    case GiveUp(c) => g.(lock := None, phase := g.phase[c := Idle])
  }

  const NEW := Gate(None, 0, None, map[], [])

  function After(ms: seq<Move>): Gate {
    if ms == [] then NEW else Step(After(ms[..|ms| - 1]), ms[|ms| - 1])
  }

  // ---------- What every step keeps ----------

  predicate Holds(p: Phase) {
    p.Inside? || p.Flying? || p.Posted? || p.Renewing? || p.Cleared?
  }

  predicate HasLoaded(p: Phase) {
    p.Loaded? || p.Inside? || p.Flying? || p.Posted? || p.Landed? || p.Reused?
  }

  predicate Locking(g: Gate) {
    && g.generation == |g.bumps|
    && (forall c :: c in g.phase && Holds(g.phase[c]) ==> g.lock == Some(c))
    && (g.lock.Some? ==> Holds(PhaseOf(g, g.lock.value)))
    && (forall c :: c in g.phase && HasLoaded(g.phase[c]) ==> g.phase[c].gen <= g.generation)
  }

  /** A result on display is that of the latest bump, except while its own flight is about to bump. */
  predicate Display(g: Gate) {
    && (g.last.Some? && !(g.lock.Some? && PhaseOf(g, g.lock.value).Posted?) ==>
          g.bumps != [] && g.bumps[|g.bumps| - 1].AuthBump? && g.bumps[|g.bumps| - 1].result == g.last.value)
    && (forall c :: c in g.phase && g.phase[c].Posted? ==> g.last == Some(g.phase[c].result))
    && (forall c :: c in g.phase && g.phase[c].Cleared? ==> g.last.None?)
  }

  predicate IsLanding(g: Gate, b: Bump)
    requires b.AuthBump?
  {
    var p := PhaseOf(g, b.caller);
    p.Landed? && p.result == b.result
  }

  /** Every reactive bump is that of a caller that has landed with its result. */
  predicate Landings(g: Gate) {
    forall j :: 0 <= j < |g.bumps| && g.bumps[j].AuthBump? ==> IsLanding(g, g.bumps[j])
  }

  /** The reused result is that of a flight whose bump came after generation `gen` was loaded. */
  predicate FromLaterFlight(g: Gate, gen: nat, result: AuthResult, bump: int) {
    gen <= bump < |g.bumps| && g.bumps[bump].AuthBump? && g.bumps[bump].result == result
  }

  predicate Reuse(g: Gate) {
    forall c :: c in g.phase && g.phase[c].Reused? ==>
      FromLaterFlight(g, g.phase[c].gen, g.phase[c].result, g.phase[c].bump)
  }

  predicate Sound(g: Gate) {
    Locking(g) && Display(g) && Landings(g) && Reuse(g)
  }

  lemma StepLocking(g: Gate, m: Move)
    requires Locking(g)
    ensures Locking(Step(g, m))
  {
  }

  lemma StepDisplay(g: Gate, m: Move)
    requires Locking(g) && Display(g)
    ensures Display(Step(g, m))
  {
    var h := Step(g, m);
    if g.lock.Some? && m.c != g.lock.value { assert PhaseOf(h, g.lock.value) == PhaseOf(g, g.lock.value); }
    forall c | c in h.phase && c != m.c ensures c in g.phase && h.phase[c] == g.phase[c] {
    }
  }

  lemma StepLandings(g: Gate, m: Move)
    requires Landings(g)
    ensures Landings(Step(g, m))
  {
    var h := Step(g, m);
    forall j | 0 <= j < |h.bumps| && h.bumps[j].AuthBump? ensures IsLanding(h, h.bumps[j]) {
      if j < |g.bumps| { assert h.bumps[j] == g.bumps[j] && IsLanding(g, g.bumps[j]); }
    }
  }

  /** A result on display belongs to the latest bump, so a caller that reuses it takes the latest. */
  lemma ReuseTakesLatest(g: Gate, c: nat)
    requires Sound(g) && Enabled(g, Compare(c)) && Step(g, Compare(c)).phase[c].Reused?
    ensures var p := Step(g, Compare(c)).phase[c];
      p.bump == |g.bumps| - 1 && FromLaterFlight(g, p.gen, p.result, p.bump)
  {
    assert g.lock == Some(c) && g.phase[c].Inside?;
  }

  lemma StepReuse(g: Gate, m: Move)
    requires Sound(g)
    ensures Reuse(Step(g, m))
  {
    var h := Step(g, m);
    assert forall j :: 0 <= j < |g.bumps| ==> h.bumps[j] == g.bumps[j];
    forall c | c in h.phase && h.phase[c].Reused?
      ensures FromLaterFlight(h, h.phase[c].gen, h.phase[c].result, h.phase[c].bump)
    {
      if c in g.phase && g.phase[c].Reused? {
        assert h.phase[c] == g.phase[c];
      } else {
        assert m == Compare(c);
        ReuseTakesLatest(g, c);
      }
    }
  }

  lemma StepSound(g: Gate, m: Move)
    requires Sound(g)
    ensures Sound(Step(g, m))
  {
    StepLocking(g, m);
    StepDisplay(g, m);
    StepLandings(g, m);
    StepReuse(g, m);
  }

  // ---------- How many callers fly ----------

  predicate Flies(p: Phase, gen: nat) {
    (p.Flying? || p.Posted? || p.Landed?) && p.gen == gen
  }

  /** The callers that loaded generation `gen` and made a flight of their own. */
  function Flown(g: Gate, gen: nat): set<nat> {
    set c | c in g.phase && Flies(g.phase[c], gen)
  }

  /** Scheduled rotations among the bumps from number `from` on. */
  function ScheduledSince(bumps: seq<Bump>, from: nat): nat {
    if |bumps| <= from then 0
    else ScheduledSince(bumps[..|bumps| - 1], from) + if bumps[|bumps| - 1].ScheduledBump? then 1 else 0
  }

  lemma BumpAdded(bumps: seq<Bump>, b: Bump, from: nat)
    requires from <= |bumps|
    ensures ScheduledSince(bumps + [b], from) == ScheduledSince(bumps, from) + if b.ScheduledBump? then 1 else 0
  {
    assert (bumps + [b])[..|bumps|] == bumps;
  }

  /** A flight out of `gen` is under way, or its result is still on display, or has just been cleared. While this holds
      no other caller that loaded `gen` begins a flight. */
  predicate Barred(g: Gate, gen: nat) {
    || (g.lock.Some? && var p := PhaseOf(g, g.lock.value); (p.Flying? || p.Posted?) && p.gen == gen)
    || (gen < g.generation && (g.last.Some? || (g.lock.Some? && PhaseOf(g, g.lock.value).Cleared?)))
  }

  /** Every flight out of a generation but one is paid for by a scheduled rotation. */
  predicate Rationed(g: Gate, gen: nat) {
    |Flown(g, gen)| <= ScheduledSince(g.bumps, gen) + if Barred(g, gen) then 1 else 0
  }

  lemma FlownStep(g: Gate, m: Move, gen: nat)
    ensures var h := Step(g, m);
      var starts := m.Compare? && Enabled(g, m) && h.phase[m.c].Flying? && g.phase[m.c].gen == gen;
      Flown(h, gen) == if starts then Flown(g, gen) + {m.c} else Flown(g, gen)
  {
    var h := Step(g, m);
    assert forall c :: c != m.c ==> PhaseOf(h, c) == PhaseOf(g, c) && (c in h.phase <==> c in g.phase);
  }

  lemma BumpsStep(g: Gate, m: Move, gen: nat)
    requires Locking(g) && gen <= g.generation
    ensures ScheduledSince(Step(g, m).bumps, gen) ==
      ScheduledSince(g.bumps, gen) + if m.BumpScheduled? && Enabled(g, m) then 1 else 0
  {
    if m.BumpAuth? && Enabled(g, m) { BumpAdded(g.bumps, AuthBump(m.c, g.phase[m.c].result), gen); }
    if m.BumpScheduled? && Enabled(g, m) { BumpAdded(g.bumps, ScheduledBump(m.c), gen); }
  }

  /** A flight begins only out of an unbarred generation, and only a scheduled bump lifts the bar. */
  lemma BarredStep(g: Gate, m: Move, gen: nat)
    requires Sound(g)
    ensures var h := Step(g, m);
      var starts := m.Compare? && Enabled(g, m) && h.phase[m.c].Flying? && g.phase[m.c].gen == gen;
      && (starts ==> !Barred(g, gen) && Barred(h, gen))
      && (Barred(g, gen) && !Barred(h, gen) ==> m.BumpScheduled? && Enabled(g, m))
  {
    var h := Step(g, m);
    assert Enabled(g, m) && g.lock.Some? && m.c != g.lock.value ==>
      PhaseOf(h, g.lock.value) == PhaseOf(g, g.lock.value);
  }

  lemma StepRationed(g: Gate, m: Move, gen: nat)
    requires Sound(g) && Rationed(g, gen) && gen <= g.generation
    ensures Rationed(Step(g, m), gen)
  {
    FlownStep(g, m, gen);
    BumpsStep(g, m, gen);
    BarredStep(g, m, gen);
  }

  lemma {:induction false} AfterSound(ms: seq<Move>)
    ensures Sound(After(ms))
  {
    if ms != [] {
      AfterSound(ms[..|ms| - 1]);
      StepSound(After(ms[..|ms| - 1]), ms[|ms| - 1]);
    }
  }

  lemma {:induction false} AfterRationed(ms: seq<Move>, gen: nat)
    ensures Rationed(After(ms), gen)
  {
    if ms != [] {
      var g, m := After(ms[..|ms| - 1]), ms[|ms| - 1];
      AfterRationed(ms[..|ms| - 1], gen);
      AfterSound(ms[..|ms| - 1]);
      if gen <= g.generation { StepRationed(g, m, gen); } else { StepSound(g, m); assert Flown(Step(g, m), gen) == {}; }
    }
  }

  // ---------- Singleflight ----------

  predicate CalledRotate(p: Phase) {
    (p.Flying? || p.Posted? || p.Landed?) && p.rotated
  }

  /** The callers that loaded generation `gen` and called `rotate`. */
  function Rotators(g: Gate, gen: nat): set<nat> {
    set c | c in g.phase && CalledRotate(g.phase[c]) && g.phase[c].gen == gen
  }

  /** Among all callers that loaded one generation, at most one calls `rotate`, and one more for each scheduled rotation
      since then, in every interleaving. */
  lemma RotationsAreRationed(ms: seq<Move>, gen: nat)
    ensures |Rotators(After(ms), gen)| <= 1 + ScheduledSince(After(ms).bumps, gen)
  {
    AfterRationed(ms, gen);
    SubsetIsSmaller(Rotators(After(ms), gen), Flown(After(ms), gen));
  }

  lemma {:induction false} NoneScheduled(bumps: seq<Bump>, from: nat)
    requires forall j :: from <= j < |bumps| ==> bumps[j].AuthBump?
    ensures ScheduledSince(bumps, from) == 0
  {
    if |bumps| > from { NoneScheduled(bumps[..|bumps| - 1], from); }
  }

  /** The generation a caller carries is the number of bumps before its load, for the rest of the run. */
  lemma {:induction false} LoadIsRemembered(ms: seq<Move>, k: nat, c: nat)
    requires k < |ms| && ms[k] == Load(c) && Enabled(After(ms[..k]), ms[k])
    ensures c in After(ms).phase && HasLoaded(After(ms).phase[c])
    ensures After(ms).phase[c].gen == |After(ms[..k]).bumps|
    decreases |ms|
  {
    var n := |ms| - 1;
    if k < n {
      assert ms[..n][..k] == ms[..k];
      LoadIsRemembered(ms[..n], k, c);
    } else {
      AfterSound(ms[..n]);
    }
  }

  /** So of two callers that loaded with the same number of bumps before them, and with no scheduled rotation since, at
      most one calls `rotate`. */
  lemma AtMostOneRotation(ms: seq<Move>, k: nat, a: nat, l: nat, b: nat)
    requires k < |ms| && ms[k] == Load(a) && Enabled(After(ms[..k]), ms[k])
    requires l < |ms| && ms[l] == Load(b) && Enabled(After(ms[..l]), ms[l])
    requires |After(ms[..k]).bumps| == |After(ms[..l]).bumps|
    requires a in After(ms).phase && b in After(ms).phase
    requires CalledRotate(After(ms).phase[a]) && CalledRotate(After(ms).phase[b])
    requires forall j :: |After(ms[..k]).bumps| <= j < |After(ms).bumps| ==> After(ms).bumps[j].AuthBump?
    ensures a == b
  {
    LoadIsRemembered(ms, k, a);
    LoadIsRemembered(ms, l, b);
    var gen := After(ms).phase[a].gen;
    RotationsAreRationed(ms, gen);
    NoneScheduled(After(ms).bumps, gen);
    if a != b {
      assert |{a, b}| == 2;
      SubsetIsSmaller({a, b}, Rotators(After(ms), gen));
    }
  }

  /** A caller that returns a result it did not compute took it from a flight whose bump happened after the caller had
      loaded the generation, and whose caller landed with that result. So the answer to a fresh failure is never one
      that was there before. */
  lemma ReusedResultIsLater(ms: seq<Move>, k: nat, c: nat)
    requires k < |ms| && ms[k] == Load(c) && Enabled(After(ms[..k]), ms[k])
    requires c in After(ms).phase && After(ms).phase[c].Reused?
    ensures var g := After(ms);
      var p := g.phase[c];
      && |After(ms[..k]).bumps| <= p.bump < |g.bumps|
      && g.bumps[p.bump].AuthBump? && g.bumps[p.bump].result == p.result
      && IsLanding(g, g.bumps[p.bump])
  {
    AfterSound(ms);
    LoadIsRemembered(ms, k, c);
  }

  /** No two callers are inside the gate. */
  lemma MutualExclusion(ms: seq<Move>, a: nat, b: nat)
    requires a in After(ms).phase && b in After(ms).phase
    requires Holds(After(ms).phase[a]) && Holds(After(ms).phase[b])
    ensures a == b
  {
    AfterSound(ms);
  }

  // ---------- Progress ----------

  lemma {:induction false} AfterMove(ms: seq<Move>, m: Move)
    ensures After(ms + [m]) == Step(After(ms), m)
  {
    assert (ms + [m])[..|ms|] == ms;
  }

  predicate Answered(p: Phase) {
    p.Landed? || p.Reused?
  }

  /** What the holder of the lock can do next. */
  function HolderMove(p: Phase, c: nat): Move
    requires Holds(p)
  {
    match p
    case Inside(_) => Compare(c)
    case Flying(_, _) => Post(c, Renewed(true))
    case Posted(_, _, _) => BumpAuth(c)
    case Renewing => GiveUp(c)
    case Cleared => BumpScheduled(c)
  }

  function StepsLeft(p: Phase): nat {
    if p.Inside? then 3 else if p.Flying? then 2 else 1
  }

  lemma HolderMoves(g: Gate, c: nat)
    requires Locking(g) && g.lock == Some(c)
    ensures var m := HolderMove(PhaseOf(g, c), c);
      var h := Step(g, m);
      && m.c == c && Enabled(g, m)
      && (h.lock == Some(c) || h.lock == None)
      && (h.lock.Some? ==> Holds(PhaseOf(h, c)) && StepsLeft(PhaseOf(h, c)) < StepsLeft(PhaseOf(g, c)))
      && (HasLoaded(PhaseOf(g, c)) ==> HasLoaded(PhaseOf(h, c)) && (h.lock.None? ==> Answered(PhaseOf(h, c))))
      && forall d :: d != c ==> PhaseOf(h, d) == PhaseOf(g, d)
  {
  }

  /** Whoever holds the lock can let go of it with its own moves alone; if it is a reactive caller, it then has its
      answer. */
  lemma {:induction false} HolderCanLeave(ms: seq<Move>, c: nat) returns (more: seq<Move>)
    requires After(ms).lock == Some(c)
    ensures After(ms + more).lock == None && forall i :: 0 <= i < |more| ==> more[i].c == c
    ensures HasLoaded(PhaseOf(After(ms), c)) ==> Answered(PhaseOf(After(ms + more), c))
    ensures forall d :: d != c ==> PhaseOf(After(ms + more), d) == PhaseOf(After(ms), d)
    decreases StepsLeft(PhaseOf(After(ms), c))
  {
    AfterSound(ms);
    HolderMoves(After(ms), c);
    var m := HolderMove(PhaseOf(After(ms), c), c);
    AfterMove(ms, m);
    more := [m];
    if After(ms + [m]).lock.Some? {
      var rest := HolderCanLeave(ms + [m], c);
      more := [m] + rest;
      assert ms + more == ms + [m] + rest;
    }
  }

  /** A waiting caller can get its answer once the lock is free. */
  lemma WaiterCanFinish(ms: seq<Move>, c: nat) returns (more: seq<Move>)
    requires After(ms).lock.None? && PhaseOf(After(ms), c).Loaded?
    ensures Answered(PhaseOf(After(ms + more), c)) && forall i :: 0 <= i < |more| ==> more[i].c == c
  {
    AfterMove(ms, Acquire(c));
    var entered := ms + [Acquire(c)];
    var rest := HolderCanLeave(entered, c);
    more := [Acquire(c)] + rest;
    assert ms + more == entered + rest;
  }

  lemma Unanswered(g: Gate, c: nat)
    requires Locking(g) && HasLoaded(PhaseOf(g, c)) && !Answered(PhaseOf(g, c)) && g.lock != Some(c)
    ensures PhaseOf(g, c).Loaded?
  {
  }

  /** No caller is ever stuck: from any state a caller that has loaded a generation can still get its answer, by moves
      of its own and of whoever holds the lock before it. */
  lemma EveryCallerCanFinish(ms: seq<Move>, c: nat) returns (more: seq<Move>)
    requires HasLoaded(PhaseOf(After(ms), c))
    ensures Answered(PhaseOf(After(ms + more), c))
    ensures forall i :: 0 <= i < |more| ==> more[i].c == c || Some(more[i].c) == After(ms).lock
  {
    AfterSound(ms);
    if Answered(PhaseOf(After(ms), c)) {
      more := [];
      assert ms + more == ms;
    } else if After(ms).lock == Some(c) {
      more := HolderCanLeave(ms, c);
    } else {
      Unanswered(After(ms), c);
      var first := [];
      assert ms + first == ms;
      if After(ms).lock.Some? { first := HolderCanLeave(ms, After(ms).lock.value); }
      var rest := WaiterCanFinish(ms + first, c);
      more := first + rest;
      assert ms + more == ms + first + rest;
    }
  }

  // ---------- The ration can be used up ----------

  lemma {:induction false} ThreeMoves(ms: seq<Move>, x: Move, y: Move, z: Move)
    ensures After(ms + [x, y, z]) == Step(Step(Step(After(ms), x), y), z)
  {
    var one := ms + [x];
    var two := one + [y];
    assert ms + [x, y, z] == two + [z];
    AfterMove(ms, x);
    AfterMove(one, y);
    AfterMove(two, z);
  }

  // Two callers load generation 0; the first rotates, a scheduled rotation clears its result, the second rotates too.
  const LOADED: seq<Move> := [Load(1), Load(2), Acquire(1)]
  const ROTATED: seq<Move> := LOADED + [Compare(1), CallRotate(1), Post(1, Renewed(true))]
  const CLEARED: seq<Move> := ROTATED + [BumpAuth(1), Enter(3), Clear(3)]
  const REOPENED: seq<Move> := CLEARED + [BumpScheduled(3), Acquire(2), Compare(2)]

  lemma UpToRotated()
    ensures After(ROTATED) ==
      Gate(Some(1), 0, Some(Renewed(true)), map[1 := Posted(0, true, Renewed(true)), 2 := Loaded(0)], [])
  {
    assert [] + LOADED == LOADED;
    ThreeMoves([], Load(1), Load(2), Acquire(1));
    assert After(LOADED).phase == map[1 := Inside(0), 2 := Loaded(0)];
    ThreeMoves(LOADED, Compare(1), CallRotate(1), Post(1, Renewed(true)));
  }

  lemma UpToReopened()
    ensures After(REOPENED) ==
      Gate(Some(2), 2, None, map[1 := Landed(0, true, Renewed(true)), 2 := Flying(0, false), 3 := Idle],
           [AuthBump(1, Renewed(true)), ScheduledBump(3)])
  {
    UpToRotated();
    ThreeMoves(ROTATED, BumpAuth(1), Enter(3), Clear(3));
    assert After(CLEARED).phase == map[1 := Landed(0, true, Renewed(true)), 2 := Loaded(0), 3 := Cleared];
    ThreeMoves(CLEARED, BumpScheduled(3), Acquire(2), Compare(2));
  }

  /** One scheduled rotation can let two callers that loaded the same generation both call `rotate`. */
  lemma BothCanRotate()
    ensures var g := After(REOPENED + [CallRotate(2)]);
      Rotators(g, 0) == {1, 2} && ScheduledSince(g.bumps, 0) == 1
  {
    UpToReopened();
    AfterMove(REOPENED, CallRotate(2));
    var g := After(REOPENED + [CallRotate(2)]);
    var done := AuthBump(1, Renewed(true));
    assert g.phase == map[1 := Landed(0, true, Renewed(true)), 2 := Flying(0, true), 3 := Idle];
    assert g.bumps == [] + [done] + [ScheduledBump(3)];
    assert Rotators(g, 0) == {1, 2};
    BumpAdded([] + [done], ScheduledBump(3), 0);
    BumpAdded([], done, 0);
  }
}
