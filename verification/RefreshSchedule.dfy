/** Credential lease schedules of `src/credential_refresh.rs`: deadlines, claims, backoff and pacing. */
module RefreshSchedule {
  import opened Common

  // Wall-clock times are nanoseconds.
  const DEFAULT_REFRESH_LEAD: nat := 300 * SECOND
  const MIN_RETRY_SECS: nat := 5
  const MAX_RETRY_SECS: nat := 300
  const CLAIM_GRACE: nat := 60 * SECOND
  const MIN_INTERVAL: nat := 60 * SECOND
  const U32_MAX: nat := 0xFFFF_FFFF

  /** A one-way digest of a secret, taken to be injective; `Blank` is the all-zero placeholder. */
  datatype Fingerprint = Blank | Digest(secret: string)
  datatype LeaseIdentity = LeaseIdentity(expiresAt: Option<int>, refreshAfter: Option<int>, fingerprint: Fingerprint)
  datatype Schedule = Schedule(nextAttemptAt: int, failures: nat, identity: LeaseIdentity, claimUntil: Option<int>)
  datatype Credential = Credential(secret: string, expiresAt: Option<int>, refreshAfter: Option<int>, rotated: bool)
  datatype Failure = Failure(invalidCredential: bool, retryAfterSecs: Option<nat>)

  // ---------- Deadlines ----------

  function IdentityOf(c: Credential): LeaseIdentity {
    LeaseIdentity(c.expiresAt, c.refreshAfter, Digest(c.secret))
  }

  /** Whole seconds, truncated, and never negative. */
  function WholeSeconds(d: int): nat {
    if d <= 0 then 0 else d / SECOND
  }

  function RequestedAt(c: Credential, now: int): Option<int> {
    match c.refreshAfter
    case Some(t) => Some(t)
    case None =>
      match c.expiresAt
      case None => None
      case Some(expires) =>
        var lead := Min(WholeSeconds(expires - now) / 2 * SECOND, DEFAULT_REFRESH_LEAD);
        Some(expires - lead)
  }

  /** `schedule_from_credential`. */
  function FromCredential(c: Credential, now: int): Option<Schedule> {
    match RequestedAt(c, now)
    case None => None
    case Some(t) => Some(Schedule(Max(t, now), 0, IdentityOf(c), None))
  }

  predicate Timed(c: Credential) {
    c.expiresAt.Some? || c.refreshAfter.Some?
  }

  /** A credential without timing hints has no schedule; an explicit refresh time is the deadline, or now if it has
      passed; so is the expiry of a lease that has ended. */
  lemma HintsDecideDeadline(c: Credential, now: int)
    ensures var s := FromCredential(c, now);
      && (s.None? <==> c.expiresAt.None? && c.refreshAfter.None?)
      && (s.Some? ==> s.value == Schedule(s.value.nextAttemptAt, 0, IdentityOf(c), None))
      && (s.Some? ==> s.value.nextAttemptAt >= now)
      && (c.refreshAfter.Some? && c.refreshAfter.value >= now ==> s.value.nextAttemptAt == c.refreshAfter.value)
      && (c.refreshAfter.Some? && c.refreshAfter.value < now ==> s.value.nextAttemptAt == now)
      && (c.refreshAfter.None? && c.expiresAt.Some? && c.expiresAt.value <= now ==> s.value.nextAttemptAt == now)
  {
  }

  /** Two credentials are the same lease exactly when hints and secret are the same. */
  lemma IdentityIsLease(a: Credential, b: Credential)
    ensures IdentityOf(a) == IdentityOf(b) <==>
      a.expiresAt == b.expiresAt && a.refreshAfter == b.refreshAfter && a.secret == b.secret
  {
  }

  /** A deadline derived from an expiry keeps the shorter of five minutes and half the remaining lease in hand; the half
      is cut to whole seconds. */
  lemma DerivedDeadline(c: Credential, now: int)
    requires c.refreshAfter.None? && c.expiresAt.Some? && c.expiresAt.value > now
    ensures var next := FromCredential(c, now).value.nextAttemptAt;
      && now <= next <= c.expiresAt.value
      && c.expiresAt.value - next <= 300 * SECOND
      && 2 * (c.expiresAt.value - next) <= c.expiresAt.value - now
      && (c.expiresAt.value - now >= 600 * SECOND ==> c.expiresAt.value - next == 300 * SECOND)
      && (c.expiresAt.value - now < 600 * SECOND ==>
            2 * (c.expiresAt.value - next) > c.expiresAt.value - now - 2 * SECOND)
  {
    var d := c.expiresAt.value - now;
    var whole := d / SECOND;
    assert whole * SECOND <= d < (whole + 1) * SECOND;
    assert whole / 2 * 2 <= whole;
    assert d >= 600 * SECOND ==> whole >= 600;
  }

  /** `apply_minimum_retry_floor`: a deadline that is already due moves to the floor, but not past a live expiry. */
  function Floored(s: Schedule, now: int, floor: int): Schedule {
    if s.nextAttemptAt > now then s
    else
      var live := s.identity.expiresAt.Some? && s.identity.expiresAt.value > now;
      s.(nextAttemptAt := Max(s.nextAttemptAt, if live then Min(floor, s.identity.expiresAt.value) else floor))
  }

  predicate SameTiming(a: LeaseIdentity, b: LeaseIdentity) {
    a.expiresAt == b.expiresAt && a.refreshAfter == b.refreshAfter
  }

  /** `store_schedule` for one key. */
  function Stored(existing: Option<Schedule>, c: Credential, reset: bool, now: int, notBefore: Option<int>)
    : Option<Schedule>
  {
    match FromCredential(c, now)
    case None => None
    case Some(derived) =>
      var sameTiming := existing.Some? && SameTiming(existing.value.identity, derived.identity);
      var sameSecret := existing.Some? && existing.value.identity.fingerprint == derived.identity.fingerprint;
      var merged :=
        if existing.None? then derived
        else if sameTiming then
          Schedule(existing.value.nextAttemptAt,
                   if reset then 0 else existing.value.failures,
                   derived.identity,
                   if !reset && sameSecret then existing.value.claimUntil else None)
        else if !reset && existing.value.failures > 0 then
          Schedule(Max(derived.nextAttemptAt, existing.value.nextAttemptAt), existing.value.failures,
                   derived.identity, None)
        else derived;
      var changed := existing.Some? && !(sameTiming && sameSecret);
      Some(if changed || notBefore.Some? then Floored(merged, now, notBefore.Or(now + MIN_INTERVAL)) else merged)
  }

  /** `exponential_backoff_secs`. */
  function Backoff(failures: nat): nat {
    Min(MIN_RETRY_SECS * Pow2(Min(if failures == 0 then 0 else failures - 1, 6)), MAX_RETRY_SECS)
  }

  lemma {:induction false} Pow2AtLeast(n: nat)
    requires n >= 6
    ensures Pow2(n) >= 64
  {
    if n > 6 { Pow2AtLeast(n - 1); } else { assert Pow2(6) == 2 * Pow2(5) == 4 * Pow2(4) == 8 * Pow2(3) == 64; }
  }

  /** The cap on the shift is invisible: the delay doubles from five seconds until it reaches five minutes. */
  lemma BackoffDoubles(failures: nat)
    requires failures >= 1
    ensures Backoff(failures) == Min(MIN_RETRY_SECS * Pow2(failures - 1), MAX_RETRY_SECS)
  {
    if failures - 1 > 6 {
      Pow2AtLeast(failures - 1);
      Pow2AtLeast(6);
    }
  }

  /** `record_failure` for one key. A delay named by the provider is honoured, even zero. */
  function Failed(existing: Option<Schedule>, retryAfterSecs: Option<nat>, now: int): Schedule {
    var s := existing.Or(Schedule(now, 0, LeaseIdentity(None, None, Blank), None));
    var failures := Min(s.failures + 1, U32_MAX);
    var retry := retryAfterSecs.Or(Backoff(failures));
    s.(failures := failures, nextAttemptAt := now + Min(retry, MAX_RETRY_SECS) * SECOND, claimUntil := None)
  }

  predicate Due(s: Schedule, now: int) {
    s.nextAttemptAt <= now && !(s.claimUntil.Some? && s.claimUntil.value > now)
  }

  /** `claim_due` for one key. */
  function Claimed(s: Schedule, now: int): Schedule {
    if Due(s, now) then s.(claimUntil := Some(now + CLAIM_GRACE)) else s
  }

  // ---------- What each path does to one key's schedule ----------

  datatype Resolution = Resolved(c: Credential) | Unresolved(e: Failure)

  /** What a credential strategy answers along one flight, and when the flight looks at the clock at its end. */
  datatype Script = Script(first: Resolution, rotate: Option<Failure>, second: Resolution, finish: int)

  datatype Effect =
    | Keep
    | Drop
    | Store(c: Credential, reset: bool, now: int, notBefore: Option<int>)
    | Fail(retryAfterSecs: Option<nat>, now: int)
    | Claim(now: int)

  function Success(c: Credential, now: int): Effect {
    Store(c, true, now, Some(now + MIN_INTERVAL))
  }

  function FailUnlessInvalid(e: Failure, now: int): Effect {
    if e.invalidCredential then Keep else Fail(e.retryAfterSecs, now)
  }

  function Apply(st: Option<Schedule>, eff: Effect): Option<Schedule> {
    match eff
    case Keep => st
    case Drop => None
    case Store(c, reset, now, notBefore) => Stored(st, c, reset, now, notBefore)
    case Fail(retry, now) => Some(Failed(st, retry, now))
    case Claim(now) => if st.Some? then Some(Claimed(st.value, now)) else None
  }

  /** Whether `rotate_scheduled_at` goes as far as calling `rotate`. */
  predicate Proceeds(st: Option<Schedule>, now: int, script: Script) {
    && script.first.Resolved? && Timed(script.first.c) && st.Some?
    && !script.first.c.rotated && st.value.identity == IdentityOf(script.first.c)
    && st.value.nextAttemptAt <= now
  }

  /** `rotate_scheduled_at` performed a rotation and returned `Ok(true)`. */
  predicate RotationSucceeds(st: Option<Schedule>, now: int, script: Script) {
    Proceeds(st, now, script) && script.rotate.None? && script.second.Resolved?
  }

  function ScheduledEffect(st: Option<Schedule>, now: int, script: Script): Effect {
    var end := Max(script.finish, now);
    match script.first
    case Unresolved(e) => FailUnlessInvalid(e, script.finish)
    case Resolved(current) =>
      if !Timed(current) then Drop
      else if st.None? then Store(current, true, script.finish, None)
      else if current.rotated || st.value.identity != IdentityOf(current) then Success(current, end)
      else if st.value.nextAttemptAt > now then Keep
      else
        match script.rotate
        case Some(e) => FailUnlessInvalid(e, script.finish)
        case None =>
          match script.second
          case Resolved(renewed) => Success(renewed, end)
          case Unresolved(e) => FailUnlessInvalid(e, script.finish)
  }

  /** `rotate_after_auth_error`, for the caller that makes the flight. */
  function ReactiveEffect(failedSecret: string, script: Script): Effect {
    if script.first.Resolved? && script.first.c.secret != failedSecret then Success(script.first.c, script.finish)
    else if script.first.Unresolved? && script.first.e.invalidCredential then Keep
    else
      match script.rotate
      case Some(e) => FailUnlessInvalid(e, script.finish)
      case None =>
        match script.second
        case Resolved(renewed) => Success(renewed, script.finish)
        case Unresolved(e) => FailUnlessInvalid(e, script.finish)
  }

  /** What a rotation reports to the caller whose request failed. */
  datatype Outcome = Renewed | Refused(e: Failure)

  function ReactiveOutcome(failedSecret: string, script: Script): Outcome {
    if script.first.Resolved? && script.first.c.secret != failedSecret then Renewed
    else if script.first.Unresolved? && script.first.e.invalidCredential then Refused(script.first.e)
    else if script.rotate.Some? then Refused(script.rotate.value)
    else if script.second.Unresolved? then Refused(script.second.e)
    else Renewed
  }

  datatype Action =
    | Observe(c: Credential, now: int)
    | Resolve(answer: Resolution, now: int)
    | Tick(now: int)
    | Scheduled(now: int, script: Script)
    | Reactive(failedSecret: string, script: Script)

  function EffectOf(st: Option<Schedule>, a: Action): Effect {
    match a
    case Observe(c, now) => Store(c, false, now, None)
    case Resolve(answer, now) =>
      if answer.Unresolved? then Keep
      else if answer.c.rotated then Success(answer.c, now)
      else Store(answer.c, false, now, None)
    case Tick(now) => Claim(now)
    case Scheduled(now, script) => ScheduledEffect(st, now, script)
    case Reactive(failed, script) => ReactiveEffect(failed, script)
  }

  function Next(st: Option<Schedule>, a: Action): Option<Schedule> {
    Apply(st, EffectOf(st, a))
  }

  // ---------- The coordinator ----------

  type Key = (string, string)

  function Get(m: map<Key, Schedule>, k: Key): Option<Schedule> {
    if k in m then Some(m[k]) else None
  }

  function Put(m: map<Key, Schedule>, k: Key, s: Option<Schedule>): map<Key, Schedule> {
    match s
    case Some(v) => m[k := v]
    case None => m - {k}
  }

  function ClaimAll(m: map<Key, Schedule>, now: int): map<Key, Schedule> {
    map k | k in m :: Claimed(m[k], now)
  }

  class RefreshCoordinator {
    var schedules: map<Key, Schedule>

    constructor ()
      ensures schedules == map[]
    {
      schedules := map[];
    }

    method StoreSchedule(key: Key, c: Credential, reset: bool, now: int, notBefore: Option<int>)
      modifies this
      ensures schedules == Put(old(schedules), key, Stored(Get(old(schedules), key), c, reset, now, notBefore))
    {
      var derived := FromCredential(c, now);
      if derived.None? {
        schedules := schedules - {key};
        return;
      }
      var schedule := derived.value;
      var identityChanged := false;
      if key in schedules {
        var existing := schedules[key];
        var sameSecret := existing.identity.fingerprint == schedule.identity.fingerprint;
        if SameTiming(existing.identity, schedule.identity) {
          schedule := schedule.(nextAttemptAt := existing.nextAttemptAt);
          if !reset { schedule := schedule.(failures := existing.failures); }
          schedule := schedule.(claimUntil := if !reset && sameSecret then existing.claimUntil else None);
          identityChanged := !sameSecret;
        } else {
          schedule := schedule.(claimUntil := None);
          identityChanged := true;
          if !reset && existing.failures > 0 {
            schedule := schedule.(failures := existing.failures,
                                  nextAttemptAt := Max(schedule.nextAttemptAt, existing.nextAttemptAt));
          }
        }
      }
      if identityChanged || notBefore.Some? {
        schedule := Floored(schedule, now, notBefore.Or(now + MIN_INTERVAL));
      }
      schedules := schedules[key := schedule];
    }

    method ObserveSuccessfulRotation(key: Key, c: Credential, now: int)
      modifies this
      ensures schedules == Put(old(schedules), key, Apply(Get(old(schedules), key), Success(c, now)))
    {
      StoreSchedule(key, c, true, now, Some(now + MIN_INTERVAL));
    }

    /** `resolve`, once it has the gate; the error or credential is what the strategy answered. */
    method Resolve(key: Key, answer: Resolution, now: int) returns (r: Resolution)
      modifies this
      ensures r == answer
      ensures schedules == Put(old(schedules), key, Next(Get(old(schedules), key), Action.Resolve(answer, now)))
    {
      assert Put(schedules, key, Get(schedules, key)) == schedules;
      r := answer;
      if answer.Unresolved? { return; }
      if answer.c.rotated {
        ObserveSuccessfulRotation(key, answer.c, now);
      } else {
        StoreSchedule(key, answer.c, false, now, None);
      }
    }

    method RecordFailure(key: Key, e: Failure, now: int)
      modifies this
      ensures schedules == Put(old(schedules), key, Some(Failed(Get(old(schedules), key), e.retryAfterSecs, now)))
    {
      var s := if key in schedules then schedules[key] else Schedule(now, 0, LeaseIdentity(None, None, Blank), None);
      s := s.(failures := Min(s.failures + 1, U32_MAX));
      var retry := e.retryAfterSecs.Or(Backoff(s.failures));
      s := s.(nextAttemptAt := now + Min(retry, MAX_RETRY_SECS) * SECOND, claimUntil := None);
      schedules := schedules[key := s];
    }

    /** Visits the entries in whatever order the map yields them. */
    method ClaimDue(now: int) returns (due: seq<Key>)
      modifies this
      ensures schedules == ClaimAll(old(schedules), now)
      ensures forall k :: k in due <==> k in old(schedules) && Due(old(schedules)[k], now)
      ensures forall i, j :: 0 <= i < j < |due| ==> due[i] != due[j]
    {
      due := [];
      var rest := schedules.Keys;
      while rest != {}
        invariant rest <= schedules.Keys == old(schedules).Keys
        invariant forall k :: k in rest ==> schedules[k] == old(schedules)[k]
        invariant forall k :: k in schedules && k !in rest ==> schedules[k] == Claimed(old(schedules)[k], now)
        invariant forall k :: k in due <==> k in old(schedules) && k !in rest && Due(old(schedules)[k], now)
        invariant forall i, j :: 0 <= i < j < |due| ==> due[i] != due[j]
        decreases |rest|
      {
        var k :| k in rest;
        var entry := schedules[k];
        if Due(entry, now) {
          schedules := schedules[k := entry.(claimUntil := Some(now + CLAIM_GRACE))];
          due := due + [k];
        }
        rest := rest - {k};
      }
    }

    /** The flight of `rotate_after_auth_error`; the gate decides which caller makes it. */
    method RotateAfterAuthError(key: Key, failedSecret: string, script: Script) returns (outcome: Outcome)
      modifies this
      ensures schedules == Put(old(schedules), key, Next(Get(old(schedules), key), Reactive(failedSecret, script)))
      ensures outcome == ReactiveOutcome(failedSecret, script)
    {
      assert Put(schedules, key, Get(schedules, key)) == schedules;
      if script.first.Resolved? && script.first.c.secret != failedSecret {
        ObserveSuccessfulRotation(key, script.first.c, script.finish);
        return Renewed;
      }
      if script.first.Unresolved? && script.first.e.invalidCredential {
        return Refused(script.first.e);
      }
      if script.rotate.Some? {
        if !script.rotate.value.invalidCredential { RecordFailure(key, script.rotate.value, script.finish); }
        return Refused(script.rotate.value);
      }
      if script.second.Unresolved? {
        if !script.second.e.invalidCredential { RecordFailure(key, script.second.e, script.finish); }
        return Refused(script.second.e);
      }
      ObserveSuccessfulRotation(key, script.second.c, script.finish);
      return Renewed;
    }

    method RotateScheduledAt(key: Key, now: int, script: Script) returns (rotated: bool)
      modifies this
      ensures schedules == Put(old(schedules), key, Next(Get(old(schedules), key), Scheduled(now, script)))
      ensures rotated == RotationSucceeds(Get(old(schedules), key), now, script)
    {
      rotated := false;
      assert Put(schedules, key, Get(schedules, key)) == schedules;
      if script.first.Unresolved? {
        if !script.first.e.invalidCredential { RecordFailure(key, script.first.e, script.finish); }
        return;
      }
      var current := script.first.c;
      if FromCredential(current, now).None? {
        schedules := schedules - {key};
        return;
      }
      if key !in schedules {
        StoreSchedule(key, current, true, script.finish, None);
        return;
      }
      var stored := schedules[key];
      if current.rotated || stored.identity != FromCredential(current, now).value.identity {
        ObserveSuccessfulRotation(key, current, Max(script.finish, now));
        return;
      }
      if stored.nextAttemptAt > now { return; }
      if script.rotate.Some? {
        if !script.rotate.value.invalidCredential { RecordFailure(key, script.rotate.value, script.finish); }
      } else if script.second.Unresolved? {
        if !script.second.e.invalidCredential { RecordFailure(key, script.second.e, script.finish); }
      } else {
        ObserveSuccessfulRotation(key, script.second.c, Max(script.finish, now));
        rotated := true;
      }
    }
  }

  // ---------- After a success ----------

  /** The soonest deadline a success at `now` can leave behind once the old one is due. */
  function EarliestAfter(expiresAt: Option<int>, now: int): int {
    if expiresAt.Some? && expiresAt.value > now then Min(now + 60 * SECOND, expiresAt.value) else now + 60 * SECOND
  }

  /** After any successful rotation the next attempt lies strictly ahead; a deadline that the floor had to move is
      a minute away, or at the expiry when a live lease ends sooner; failures and claims are cleared. */
  lemma AfterSuccess(st: Option<Schedule>, c: Credential, now: int)
    requires Timed(c)
    ensures var s := Apply(st, Success(c, now));
      && s.Some? && s.value.nextAttemptAt > now && s.value.failures == 0 && s.value.claimUntil.None?
      && s.value.identity == IdentityOf(c)
      && var kept := if st.Some? && SameTiming(st.value.identity, IdentityOf(c)) then st.value.nextAttemptAt
                     else FromCredential(c, now).value.nextAttemptAt;
         s.value.nextAttemptAt == if kept > now then kept else EarliestAfter(c.expiresAt, now)
  {
  }

  // ---------- Plain observations ----------

  /** The first observation of a key takes the deadline of its hints; an observation without hints ends the schedule. */
  lemma FirstObservation(st: Option<Schedule>, c: Credential, now: int)
    ensures Next(None, Observe(c, now)) == FromCredential(c, now)
    ensures c.expiresAt.None? && c.refreshAfter.None? ==> Next(st, Observe(c, now)) == None
  {
  }

  /** Observing the lease on record again changes nothing. Observing another lease records it, keeps the failure count,
      releases the claim and leaves the next attempt strictly ahead: the old deadline if only the secret changed, that
      of the new hints otherwise, or the later of both while failing; if that is due, the soonest after a success. */
  lemma ObservationIsQuiet(s: Schedule, c: Credential, now: int)
    requires Timed(c)
    ensures var r := Next(Some(s), Observe(c, now));
      && r.Some? && r.value.identity == IdentityOf(c) && r.value.failures == s.failures
      && (s.identity == IdentityOf(c) ==> r.value == s)
      && (s.identity != IdentityOf(c) ==> r.value.claimUntil.None? && r.value.nextAttemptAt > now)
      && (s.failures > 0 || SameTiming(s.identity, IdentityOf(c)) ==> r.value.nextAttemptAt >= s.nextAttemptAt)
      && var hinted := FromCredential(c, now).value.nextAttemptAt;
         var onlySecret := c.expiresAt == s.identity.expiresAt && c.refreshAfter == s.identity.refreshAfter;
         var kept := if onlySecret then s.nextAttemptAt
                     else if s.failures > 0 then Max(hinted, s.nextAttemptAt) else hinted;
         (s.identity != IdentityOf(c) ==>
            r.value.nextAttemptAt == if kept > now then kept else EarliestAfter(c.expiresAt, now))
  {
    var derived := FromCredential(c, now);
    assert derived.Some? && derived.value.identity == IdentityOf(c);
  }

  // ---------- Backoff survives observation ----------

  function After(st: Option<Schedule>, actions: seq<Action>): Option<Schedule> {
    if actions == [] then st else Next(After(st, actions[..|actions| - 1]), actions[|actions| - 1])
  }

  /** A plain observation or resolve of a credential with timing hints, a failed resolve, or a scheduler tick. */
  predicate PlainlyTimed(a: Action) {
    || (a.Observe? && Timed(a.c))
    || (a.Resolve? && (a.answer.Resolved? ==> Timed(a.answer.c) && !a.answer.c.rotated))
    || a.Tick?
  }

  /** After a recorded failure no sequence of plain observations, of the same lease or of others, and no claim
      forgets the failure count or brings the next attempt forward. */
  lemma {:induction false} BackoffSurvives(
    st: Option<Schedule>, retryAfterSecs: Option<nat>, now: int, actions: seq<Action>)
    requires forall i :: 0 <= i < |actions| ==> PlainlyTimed(actions[i])
    ensures var failed := Failed(st, retryAfterSecs, now);
      var s := After(Some(failed), actions);
      s.Some? && s.value.failures == failed.failures >= 1 && s.value.nextAttemptAt >= failed.nextAttemptAt
  {
    if actions != [] {
      BackoffSurvives(st, retryAfterSecs, now, actions[..|actions| - 1]);
      assert PlainlyTimed(actions[|actions| - 1]);
    }
  }

  // ---------- Repeated failures back off ----------

  function Count(st: Option<Schedule>): nat {
    if st.Some? then st.value.failures else 0
  }

  /** Every action is plain or records a failure. */
  ghost predicate PlainOrFailing(st: Option<Schedule>, actions: seq<Action>) {
    forall i :: 0 <= i < |actions| ==>
      PlainlyTimed(actions[i]) || EffectOf(After(st, actions[..i]), actions[i]).Fail?
  }

  /** How many failures the run records. */
  function FailuresIn(st: Option<Schedule>, actions: seq<Action>): nat {
    if actions == [] then 0
    else
      var n := |actions| - 1;
      FailuresIn(st, actions[..n]) + if EffectOf(After(st, actions[..n]), actions[n]).Fail? then 1 else 0
  }

  lemma CountStep(st: Option<Schedule>, a: Action)
    requires PlainlyTimed(a) || EffectOf(st, a).Fail?
    ensures Count(Next(st, a)) == if EffectOf(st, a).Fail? then Min(Count(st) + 1, U32_MAX) else Count(st)
  {
    if PlainlyTimed(a) && st.Some? {
      if a.Observe? { ObservationIsQuiet(st.value, a.c, a.now); }
      if a.Resolve? && a.answer.Resolved? { ObservationIsQuiet(st.value, a.answer.c, a.now); }
    }
  }

  lemma {:induction false} PlainOrFailingPrefix(st: Option<Schedule>, actions: seq<Action>)
    requires PlainOrFailing(st, actions) && actions != []
    ensures PlainOrFailing(st, actions[..|actions| - 1])
    ensures var n := |actions| - 1; PlainlyTimed(actions[n]) || EffectOf(After(st, actions[..n]), actions[n]).Fail?
  {
    var before := actions[..|actions| - 1];
    forall i | 0 <= i < |before|
      ensures PlainlyTimed(before[i]) || EffectOf(After(st, before[..i]), before[i]).Fail?
    {
      assert before[i] == actions[i] && before[..i] == actions[..i];
    }
  }

  /** Failures add up, whatever plain actions come between them. */
  lemma {:induction false} FailuresAddUp(st: Option<Schedule>, actions: seq<Action>)
    requires PlainOrFailing(st, actions) && Count(st) <= U32_MAX
    ensures Count(After(st, actions)) == Min(Count(st) + FailuresIn(st, actions), U32_MAX)
  {
    if actions != [] {
      var n := |actions| - 1;
      PlainOrFailingPrefix(st, actions);
      FailuresAddUp(st, actions[..n]);
      CountStep(After(st, actions[..n]), actions[n]);
    }
  }

  /** What a recorded failure leaves: no claim, the same lease, and an attempt after the delay that the provider named,
      at most five minutes and possibly none, or else after five seconds, doubled for each failure before, at most five
      minutes. */
  predicate BackedOff(
    before: Option<Schedule>, after: Option<Schedule>, failures: nat, retryAfterSecs: Option<nat>, at: int)
    requires failures >= 1
  {
    && after.Some? && after.value.failures == failures && after.value.claimUntil.None?
    && (before.Some? ==> after.value.identity == before.value.identity)
    && after.value.nextAttemptAt ==
         at + SECOND * (match retryAfterSecs case Some(r) => Min(r, 300) case None => Min(5 * Pow2(failures - 1), 300))
  }

  lemma FailureStep(st: Option<Schedule>, retryAfterSecs: Option<nat>, now: int, failures: nat)
    requires failures == Min(Count(st) + 1, U32_MAX)
    ensures BackedOff(st, Some(Failed(st, retryAfterSecs, now)), failures, retryAfterSecs, now)
  {
    BackoffDoubles(failures);
  }

  /** Backoff over runs: the n-th failure since a schedule without failures, whatever plain actions come between, is
      retried after its hint or after the n-th delay. */
  lemma {:induction false} FailuresBackOff(st: Option<Schedule>, actions: seq<Action>)
    requires PlainOrFailing(st, actions) && Count(st) == 0 && actions != []
    requires EffectOf(After(st, actions[..|actions| - 1]), actions[|actions| - 1]).Fail?
    requires FailuresIn(st, actions) <= U32_MAX
    ensures var before := After(st, actions[..|actions| - 1]);
      var fail := EffectOf(before, actions[|actions| - 1]);
      FailuresIn(st, actions) >= 1 &&
      BackedOff(before, After(st, actions), FailuresIn(st, actions), fail.retryAfterSecs, fail.now)
  {
    var n := |actions| - 1;
    PlainOrFailingPrefix(st, actions);
    FailuresAddUp(st, actions[..n]);
    var fail := EffectOf(After(st, actions[..n]), actions[n]);
    FailureStep(After(st, actions[..n]), fail.retryAfterSecs, fail.now, FailuresIn(st, actions));
  }

  // ---------- How flights end ----------

  /** Resolving under the gate schedules a credential that was rotated on the way as after a success, and any other as a
      plain observation; an error is left to the caller. */
  lemma ResolveSchedules(st: Option<Schedule>, answer: Resolution, now: int)
    ensures var after := Next(st, Resolve(answer, now));
      match answer
      case Unresolved(_) => after == st
      case Resolved(c) =>
        if !c.rotated then after == Next(st, Observe(c, now))
        else
          && (after.None? <==> c.expiresAt.None? && c.refreshAfter.None?)
          && (after.Some? ==> after.value.failures == 0 && after.value.nextAttemptAt > now)
  {
    if answer.Resolved? && Timed(answer.c) { AfterSuccess(st, answer.c, now); }
  }

  /** An error that ends a flight is recorded as a failure, unless the credential is invalid. */
  predicate Recorded(before: Option<Schedule>, after: Option<Schedule>, e: Failure, at: int) {
    if e.invalidCredential then after == before
    else BackedOff(before, after, Min(Count(before) + 1, U32_MAX), e.retryAfterSecs, at)
  }

  /** A reactive flight calls `rotate` unless it finds another secret than the one that failed, or an invalid
      credential. It reports success exactly when it finds a renewed credential, and then schedules that one; every
      error that it reports is recorded. */
  lemma ReactiveFlight(st: Option<Schedule>, failedSecret: string, script: Script)
    ensures var after := Next(st, Reactive(failedSecret, script));
      var found := script.first.Resolved? && script.first.c.secret != failedSecret;
      var dead := script.first.Unresolved? && script.first.e.invalidCredential;
      match ReactiveOutcome(failedSecret, script)
      case Renewed =>
        && (found || (!dead && script.rotate.None? && script.second.Resolved?))
        && after == Apply(st, Success(if found then script.first.c else script.second.c, script.finish))
      case Refused(e) =>
        && !found && Recorded(st, after, e, script.finish)
        && (if dead then e == script.first.e
            else Some(e) == script.rotate || (script.rotate.None? && script.second == Unresolved(e)))
  {
    match ReactiveOutcome(failedSecret, script)
    case Renewed =>
    case Refused(e) => FailureStep(st, e.retryAfterSecs, script.finish, Min(Count(st) + 1, U32_MAX));
  }

  /** A scheduled flight leaves alone what another path has renewed: if its resolve fails, or finds a rotated credential
      or another lease than the one on record, or the deadline is still ahead, it rotates nothing. An error is recorded;
      another lease is scheduled as after a success; a deadline ahead changes nothing. */
  lemma LeavesRenewedAlone(s: Schedule, now: int, script: Script)
    ensures var after := Next(Some(s), Scheduled(now, script));
      match script.first
      case Unresolved(e) => Recorded(Some(s), after, e, script.finish) && !RotationSucceeds(Some(s), now, script)
      case Resolved(c) => Timed(c) ==>
        var other := c.rotated || IdentityOf(c) != s.identity;
        && (other ==> after == Apply(Some(s), Success(c, Max(script.finish, now))))
        && (!other && s.nextAttemptAt > now ==> after == Some(s))
        && (other || s.nextAttemptAt > now ==> !RotationSucceeds(Some(s), now, script))
  {
    if script.first.Unresolved? {
      FailureStep(Some(s), script.first.e.retryAfterSecs, script.finish, Min(s.failures + 1, U32_MAX));
    }
  }

  /** A scheduled flight that finds its lease due calls `rotate`, and succeeds exactly when that and the second resolve
      do; otherwise the error is recorded. */
  lemma DueLeaseIsRotated(s: Schedule, now: int, script: Script)
    requires script.first.Resolved? && Timed(script.first.c) && !script.first.c.rotated
    requires IdentityOf(script.first.c) == s.identity && s.nextAttemptAt <= now
    ensures RotationSucceeds(Some(s), now, script) <==> script.rotate.None? && script.second.Resolved?
    ensures var after := Next(Some(s), Scheduled(now, script));
      match script.rotate
      case Some(e) => Recorded(Some(s), after, e, script.finish)
      case None =>
        match script.second
        case Unresolved(e) => Recorded(Some(s), after, e, script.finish)
        case Resolved(c) => after == Apply(Some(s), Success(c, Max(script.finish, now)))
  {
    var failures := Min(s.failures + 1, U32_MAX);
    if script.rotate.Some? { FailureStep(Some(s), script.rotate.value.retryAfterSecs, script.finish, failures); }
    if script.second.Unresolved? { FailureStep(Some(s), script.second.e.retryAfterSecs, script.finish, failures); }
  }

  /** Without a schedule or hints a scheduled flight never rotates: it records the lease, or drops the schedule. */
  lemma NothingToRotate(st: Option<Schedule>, now: int, script: Script)
    requires script.first.Resolved? && (st.None? || !Timed(script.first.c))
    ensures !RotationSucceeds(st, now, script)
    ensures Next(st, Scheduled(now, script)) == FromCredential(script.first.c, script.finish)
  {
  }

  // ---------- Claims ----------

  /** A scheduler tick, or an observation or resolve that finds the lease on record, or a resolve that fails. */
  predicate FindsLease(a: Action, identity: LeaseIdentity) {
    || a.Tick?
    || (a.Observe? && Timed(a.c) && IdentityOf(a.c) == identity)
    || (a.Resolve? && (a.answer.Resolved? ==>
          Timed(a.answer.c) && !a.answer.c.rotated && IdentityOf(a.answer.c) == identity))
  }

  predicate AllFindLease(actions: seq<Action>, identity: LeaseIdentity) {
    forall i :: 0 <= i < |actions| ==> FindsLease(actions[i], identity)
  }

  /** Such an action is a claim or changes nothing. */
  lemma FindingChangesNothing(s: Schedule, a: Action)
    requires FindsLease(a, s.identity)
    ensures Next(Some(s), a) == Some(if a.Tick? then Claimed(s, a.now) else s)
  {
    if a.Observe? { ObservationIsQuiet(s, a.c, a.now); }
    if a.Resolve? && a.answer.Resolved? { ObservationIsQuiet(s, a.answer.c, a.now); }
  }

  /** Claims never move a deadline: while the lease on record is the one found, nothing but the claim changes. */
  lemma {:induction false} ClaimsKeepDeadline(s: Schedule, actions: seq<Action>)
    requires AllFindLease(actions, s.identity)
    ensures var r := After(Some(s), actions); r.Some? && r.value == s.(claimUntil := r.value.claimUntil)
  {
    if actions != [] {
      ClaimsKeepDeadline(s, actions[..|actions| - 1]);
      FindingChangesNothing(After(Some(s), actions[..|actions| - 1]).value, actions[|actions| - 1]);
    }
  }

  /** The action at position `i` is a tick that claims the key. */
  predicate ClaimsAt(s: Schedule, actions: seq<Action>, i: nat)
    requires i < |actions|
  {
    actions[i].Tick? && var before := After(Some(s), actions[..i]); before.Some? && Due(before.value, actions[i].now)
  }

  lemma {:induction false} ClaimHolds(s: Schedule, actions: seq<Action>, i: nat)
    requires AllFindLease(actions, s.identity) && i < |actions| && ClaimsAt(s, actions, i)
    ensures var r := After(Some(s), actions);
      r.Some? && r.value.claimUntil.Some? && r.value.claimUntil.value >= actions[i].now + CLAIM_GRACE
    decreases |actions|
  {
    var n := |actions| - 1;
    ClaimsKeepDeadline(s, actions[..n]);
    FindingChangesNothing(After(Some(s), actions[..n]).value, actions[n]);
    if i < n {
      assert actions[..n][..i] == actions[..i];
      ClaimHolds(s, actions[..n], i);
    }
  }

  /** A due deadline is claimed by the first tick that reaches it: from a schedule without a claim, ticks before the
      deadline claim nothing, and the first one at or after it claims the key for a minute. */
  lemma {:induction false} FirstDueTickClaims(s: Schedule, actions: seq<Action>, at: int)
    requires s.claimUntil.None? && AllFindLease(actions, s.identity)
    requires forall i :: 0 <= i < |actions| && actions[i].Tick? ==> actions[i].now < s.nextAttemptAt
    ensures After(Some(s), actions) == Some(s)
    ensures at < s.nextAttemptAt ==> Next(Some(s), Tick(at)) == Some(s)
    ensures at >= s.nextAttemptAt ==> Next(Some(s), Tick(at)) == Some(s.(claimUntil := Some(at + 60 * SECOND)))
  {
    if actions != [] {
      FirstDueTickClaims(s, actions[..|actions| - 1], at);
      FindingChangesNothing(s, actions[|actions| - 1]);
    }
  }

  /** Two claims of one key are at least a minute apart, unless a store of another lease, a rotation or a failure comes
      between them. */
  lemma {:induction false} ClaimsAreSpaced(s: Schedule, actions: seq<Action>, i: nat, j: nat)
    requires AllFindLease(actions, s.identity) && i < j < |actions|
    requires ClaimsAt(s, actions, i) && ClaimsAt(s, actions, j)
    ensures actions[j].now >= actions[i].now + 60 * SECOND
  {
    assert actions[..j][..i] == actions[..i];
    ClaimHolds(s, actions[..j], i);
  }

  // ---------- Pacing ----------

  /** The end times of the successful scheduled rotations in a run. */
  function Rotations(st: Option<Schedule>, actions: seq<Action>): seq<int> {
    if actions == [] then []
    else
      var n := |actions| - 1;
      var before := Rotations(st, actions[..n]);
      var a := actions[n];
      if a.Scheduled? && RotationSucceeds(After(st, actions[..n]), a.now, a.script)
      then before + [Max(a.script.finish, a.now)] else before
  }

  predicate Hinted(c: Credential, expiresAt: Option<int>, refreshAfter: Option<int>) {
    Timed(c) && c.expiresAt == expiresAt && c.refreshAfter == refreshAfter
  }

  predicate AnswerHinted(r: Resolution, expiresAt: Option<int>, refreshAfter: Option<int>) {
    r.Resolved? ==> Hinted(r.c, expiresAt, refreshAfter)
  }

  /** Every credential seen in the action carries these timing hints. */
  predicate SameHints(a: Action, expiresAt: Option<int>, refreshAfter: Option<int>) {
    match a
    case Observe(c, _) => Hinted(c, expiresAt, refreshAfter)
    case Resolve(answer, _) => AnswerHinted(answer, expiresAt, refreshAfter)
    case Tick(_) => true
    case Scheduled(_, s) =>
      AnswerHinted(s.first, expiresAt, refreshAfter) && AnswerHinted(s.second, expiresAt, refreshAfter)
    case Reactive(_, s) =>
      AnswerHinted(s.first, expiresAt, refreshAfter) && AnswerHinted(s.second, expiresAt, refreshAfter)
  }

  /** The timing hints stay unchanged and no failure is recorded. */
  ghost predicate AllSteady(
    st: Option<Schedule>, actions: seq<Action>, expiresAt: Option<int>, refreshAfter: Option<int>)
  {
    forall i :: 0 <= i < |actions| ==>
      SameHints(actions[i], expiresAt, refreshAfter) && !EffectOf(After(st, actions[..i]), actions[i]).Fail?
  }

  /** Each rotation comes no sooner than its predecessor allows. */
  predicate Spaced(ts: seq<int>, expiresAt: Option<int>) {
    forall k :: 0 < k < |ts| ==> ts[k] >= EarliestAfter(expiresAt, ts[k - 1])
  }

  /** Where a run stands after its last rotation. */
  ghost predicate Paced(st: Option<Schedule>, ts: seq<int>, expiresAt: Option<int>, refreshAfter: Option<int>) {
    && Spaced(ts, expiresAt)
    && (ts != [] ==>
          && st.Some? && st.value.identity.expiresAt == expiresAt && st.value.identity.refreshAfter == refreshAfter
          && st.value.nextAttemptAt >= EarliestAfter(expiresAt, ts[|ts| - 1]))
  }

  /** Under unchanged timing hints a store never brings the deadline forward. */
  lemma SteadyNeverEarlier(s: Schedule, a: Action)
    requires SameHints(a, s.identity.expiresAt, s.identity.refreshAfter) && !EffectOf(Some(s), a).Fail?
    ensures var r := Next(Some(s), a);
      r.Some? && SameTiming(r.value.identity, s.identity) && r.value.nextAttemptAt >= s.nextAttemptAt
  {
  }

  lemma PacedStep(st: Option<Schedule>, ts: seq<int>, a: Action, expiresAt: Option<int>, refreshAfter: Option<int>)
    requires Paced(st, ts, expiresAt, refreshAfter) && SameHints(a, expiresAt, refreshAfter) && !EffectOf(st, a).Fail?
    ensures a.Scheduled? && RotationSucceeds(st, a.now, a.script) ==>
      Paced(Next(st, a), ts + [Max(a.script.finish, a.now)], expiresAt, refreshAfter)
    ensures !(a.Scheduled? && RotationSucceeds(st, a.now, a.script)) ==> Paced(Next(st, a), ts, expiresAt, refreshAfter)
  {
    if a.Scheduled? && RotationSucceeds(st, a.now, a.script) {
      var end := Max(a.script.finish, a.now);
      AfterSuccess(st, a.script.second.c, end);
      assert Next(st, a).value.nextAttemptAt >= EarliestAfter(expiresAt, end);
    } else if ts != [] {
      SteadyNeverEarlier(st.value, a);
    }
  }

  lemma {:induction false} RunIsPaced(
    st: Option<Schedule>, actions: seq<Action>, expiresAt: Option<int>, refreshAfter: Option<int>)
    requires AllSteady(st, actions, expiresAt, refreshAfter)
    ensures Paced(After(st, actions), Rotations(st, actions), expiresAt, refreshAfter)
  {
    if actions != [] {
      var n := |actions| - 1;
      assert forall i :: 0 <= i < n ==> actions[..n][..i] == actions[..i];
      RunIsPaced(st, actions[..n], expiresAt, refreshAfter);
      PacedStep(After(st, actions[..n]), Rotations(st, actions[..n]), actions[n], expiresAt, refreshAfter);
    }
  }

  lemma {:induction false} RotationsAreSpaced(
    st: Option<Schedule>, actions: seq<Action>, expiresAt: Option<int>, refreshAfter: Option<int>)
    requires AllSteady(st, actions, expiresAt, refreshAfter)
    ensures Spaced(Rotations(st, actions), expiresAt)
  {
    RunIsPaced(st, actions, expiresAt, refreshAfter);
  }

  /** Refresh pacing, gap by gap: while a lease's timing hints stay the same and no failure is recorded, a successful
      scheduled rotation follows the one before it by a minute, or comes after the end of a lease that was live then. */
  lemma {:induction false} EachGapIsLong(
    st: Option<Schedule>, actions: seq<Action>, expiresAt: Option<int>, refreshAfter: Option<int>, k: nat)
    requires AllSteady(st, actions, expiresAt, refreshAfter) && 0 < k < |Rotations(st, actions)|
    ensures var before, after := Rotations(st, actions)[k - 1], Rotations(st, actions)[k];
      after - before >= 60 * SECOND || (expiresAt.Some? && before < expiresAt.value <= after)
  {
    RotationsAreSpaced(st, actions, expiresAt, refreshAfter);
  }

  /** No gap of a spaced sequence is short, or one is and the lease has expired since. */
  lemma {:induction false} GapsAddUp(ts: seq<int>, expiresAt: Option<int>)
    requires Spaced(ts, expiresAt) && ts != []
    ensures var span, n := ts[|ts| - 1] - ts[0], |ts|;
      || span >= MIN_INTERVAL * (n - 1)
      || (span >= MIN_INTERVAL * (n - 2) && expiresAt.Some? && expiresAt.value <= ts[n - 1])
  {
    if |ts| > 1 { GapsAddUp(ts[..|ts| - 1], expiresAt); }
  }

  /** So N rotations span at least N - 2 minutes: one gap may be cut short by the lease's expiry, never two. */
  lemma {:induction false} RotationsArePaced(
    st: Option<Schedule>, actions: seq<Action>, expiresAt: Option<int>, refreshAfter: Option<int>)
    requires AllSteady(st, actions, expiresAt, refreshAfter)
    ensures var ts := Rotations(st, actions);
      |ts| >= 1 ==> ts[|ts| - 1] - ts[0] >= 60 * SECOND * (|ts| - 2)
  {
    RotationsAreSpaced(st, actions, expiresAt, refreshAfter);
    var ts := Rotations(st, actions);
    if ts != [] { GapsAddUp(ts, expiresAt); }
  }

  function Lease(expires: int): Credential {
    Credential("s", Some(expires), Some(0), false)
  }

  /** A flight that finds the lease on record, rotates it and finds it again. */
  function Flight(c: Credential, now: int): Action {
    Scheduled(now, Script(Resolved(c), None, Resolved(c), now))
  }

  /** Short gaps are real, whenever the condition holds: if a lease is rotated at `t` and expires within the minute, the
      next rotation can come at its expiry. */
  lemma OneGapCanBeShort(t: int, expires: int)
    requires t < expires <= t + MIN_INTERVAL
    ensures var c := Lease(expires);
      var st := Some(Schedule(t, 0, IdentityOf(c), None));
      var actions := [Flight(c, t), Flight(c, expires)];
      Rotations(st, actions) == [t, expires] && AllSteady(st, actions, Some(expires), Some(0))
  {
    var c := Lease(expires);
    var st := Some(Schedule(t, 0, IdentityOf(c), None));
    var a, b := Flight(c, t), Flight(c, expires);
    AfterSuccess(st, c, t);
    assert [a, b][..1] == [a] && [a][..0] == [] && [a, b][..0] == [];
    assert After(st, []) == st && Rotations(st, []) == [];
    assert After(st, [a]) == Next(st, a);
    assert Rotations(st, [a]) == [t];
    assert After(st, [a]).value.nextAttemptAt == expires;
  }
}
