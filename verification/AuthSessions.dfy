/** One-time plugin authorization sessions of `src/auth.rs`: a lazily swept map against the history of calls. */
module AuthSessions {
  import opened Common

  /** Instants are nanoseconds on a monotonic clock. */
  const PLUGIN_AUTH_TTL: nat := 600 * SECOND

  /** What parsing a redirect URI yields. */
  datatype Url = Url(scheme: string, username: string, password: Option<string>, query: Option<string>,
                     fragment: Option<string>, host: Option<string>, path: string)

  datatype Flow = Flow(pluginId: string, flowName: string, integrationId: string, providerId: string,
                       credentialBinding: string, redirect: Option<Url>, pkceVerifier: string, initiator: string)
  datatype Session = Session(flow: Flow, expiresAt: nat)
  datatype Status = Status(result: string, providerId: Option<string>)
  datatype Completed = Completed(initiator: string, status: Status, expiresAt: nat)

  const PENDING := Status("pending", None)

  predicate LoopbackAllowed(f: Flow) {
    && f.redirect.Some?
    && var u := f.redirect.value;
    && u.scheme == "http" && u.username == "" && u.password.None? && u.query.None? && u.fragment.None?
    && u.path == "/callback"
    && (|| (f.pluginId == "dev.kinetix.claude-code-oauth" && u.host == Some("localhost"))
        || (f.pluginId == "dev.kinetix.antigravity-oauth"
            && (u.host == Some("localhost") || u.host == Some("127.0.0.1") || u.host == Some("::1"))))
  }

  /** The plugins that may use a loopback callback, each with its hosts. */
  const LOOPBACK_CLIENTS: set<(string, string)> := {
    ("dev.kinetix.claude-code-oauth", "localhost"),
    ("dev.kinetix.antigravity-oauth", "localhost"),
    ("dev.kinetix.antigravity-oauth", "127.0.0.1"),
    ("dev.kinetix.antigravity-oauth", "::1")
  }

  /** The redirect is exactly a bare `http` callback, on a host that the plugin may use. */
  lemma LoopbackMeansBareCallback(f: Flow)
    ensures LoopbackAllowed(f) <==>
      exists host: string :: (f.pluginId, host) in LOOPBACK_CLIENTS
        && f.redirect == Some(Url("http", "", None, None, None, Some(host), "/callback"))
  {
    if LoopbackAllowed(f) {
      var host := f.redirect.value.host.value;
      assert (f.pluginId, host) in LOOPBACK_CLIENTS;
    }
  }

  // ---------- The swept map ----------

  function Swept(m: map<string, Session>, now: nat): map<string, Session> {
    map k | k in m && m[k].expiresAt > now :: m[k]
  }

  function SweptDone(m: map<string, Completed>, now: nat): map<string, Completed> {
    map k | k in m && m[k].expiresAt > now :: m[k]
  }

  function PeekIn(m: map<string, Session>, state: string, initiator: string): Option<Session> {
    if state in m && m[state].flow.initiator == initiator then Some(m[state]) else None
  }

  function LoopbackIn(m: map<string, Session>, state: string): Option<Session> {
    if state in m && LoopbackAllowed(m[state].flow) then Some(m[state]) else None
  }

  function StatusIn(m: map<string, Completed>, state: string, initiator: string): Option<Status> {
    if state in m && m[state].initiator == initiator then Some(m[state].status) else None
  }

  class PluginAuthSessions {
    var inner: map<string, Session>
    var completed: map<string, Completed>

    constructor ()
      ensures inner == map[] && completed == map[]
    {
      inner, completed := map[], map[];
    }

    /** The state token is drawn by the caller's random source. */
    method Create(state: string, flow: Flow, now: nat)
      modifies this`inner
      ensures inner == Swept(old(inner), now)[state := Session(flow, now + PLUGIN_AUTH_TTL)]
    {
      inner := map k | k in inner && inner[k].expiresAt > now :: inner[k];
      inner := inner[state := Session(flow, now + PLUGIN_AUTH_TTL)];
    }

    method Peek(state: string, initiator: string, now: nat) returns (r: Option<Session>)
      modifies this`inner
      ensures inner == Swept(old(inner), now)
      ensures r == PeekIn(inner, state, initiator)
    {
      inner := map k | k in inner && inner[k].expiresAt > now :: inner[k];
      if state !in inner { return None; }
      var session := inner[state];
      if session.flow.initiator != initiator { return None; }
      return Some(session);
    }

    /** The second half of `status`. */
    method LookUp(state: string, initiator: string, now: nat) returns (r: Option<Status>)
      modifies this`completed
      ensures completed == SweptDone(old(completed), now)
      ensures r == StatusIn(completed, state, initiator)
    {
      completed := map k | k in completed && completed[k].expiresAt > now :: completed[k];
      if state !in completed { return None; }
      var entry := completed[state];
      if entry.initiator != initiator { return None; }
      return Some(entry.status);
    }

    /** Two critical sections, one for each map, and a clock reading before each. This contract is for a call whose two
        halves meet no other call between them; runs take the halves as calls of their own. */
    method StatusOf(state: string, initiator: string, now: nat, later: nat) returns (r: Option<Status>)
      modifies this
      ensures inner == Swept(old(inner), now)
      ensures var pending := PeekIn(inner, state, initiator);
        && completed == (if pending.Some? then old(completed) else SweptDone(old(completed), later))
        && r == if pending.Some? then Some(PENDING) else StatusIn(completed, state, initiator)
    {
      var pending := Peek(state, initiator, now);
      if pending.Some? { return Some(PENDING); }
      r := LookUp(state, initiator, later);
    }

    method RecordCompletion(state: string, initiator: string, status: Status, now: nat)
      modifies this`completed
      ensures completed == SweptDone(old(completed), now)[state := Completed(initiator, status, now + PLUGIN_AUTH_TTL)]
    {
      completed := map k | k in completed && completed[k].expiresAt > now :: completed[k];
      completed := completed[state := Completed(initiator, status, now + PLUGIN_AUTH_TTL)];
    }

    method Take(state: string, initiator: string, now: nat) returns (r: Option<Session>)
      modifies this`inner
      ensures inner == Swept(old(inner), now) - {state}
      ensures r == PeekIn(Swept(old(inner), now), state, initiator)
    {
      inner := map k | k in inner && inner[k].expiresAt > now :: inner[k];
      if state !in inner { return None; }
      var session := inner[state];
      inner := inner - {state};
      if session.expiresAt <= now { return None; }
      if session.flow.initiator != initiator { return None; }
      return Some(session);
    }

    method TakeLoopbackCallback(state: string, now: nat) returns (r: Option<Session>)
      modifies this`inner
      ensures inner == Swept(old(inner), now) - {state}
      ensures r == LoopbackIn(Swept(old(inner), now), state)
    {
      inner := map k | k in inner && inner[k].expiresAt > now :: inner[k];
      if state !in inner { return None; }
      var session := inner[state];
      inner := inner - {state};
      if session.expiresAt <= now { return None; }
      if session.flow.redirect.None? { return None; }
      var u := session.flow.redirect.value;
      if u.scheme != "http" || u.username != "" || u.password.Some? || u.query.Some? || u.fragment.Some? {
        return None;
      }
      var allowed :=
        if session.flow.pluginId == "dev.kinetix.claude-code-oauth" then
          u.host == Some("localhost") && u.path == "/callback"
        else if session.flow.pluginId == "dev.kinetix.antigravity-oauth" then
          (u.host == Some("localhost") || u.host == Some("127.0.0.1") || u.host == Some("::1")) && u.path == "/callback"
        else false;
      return if allowed then Some(session) else None;
    }

    method Revoke(state: string)
      modifies this`inner
      ensures inner == old(inner) - {state}
    {
      inner := inner - {state};
    }
  }

  // ---------- Calls, and what the maps answer ----------

  /** One critical section each, in the order in which the lock is taken. The instant is read before the lock is
      taken, so it may step back from one call to the next. A status query is `Peek`, then `LookUp` if that fails. */
  datatype Call =
    | Create(state: string, flow: Flow, now: nat)
    | Peek(state: string, initiator: string, now: nat)
    | LookUp(state: string, initiator: string, now: nat)
    | RecordCompletion(state: string, initiator: string, status: Status, now: nat)
    | Take(state: string, initiator: string, now: nat)
    | TakeLoopback(state: string, now: nat)
    | Revoke(state: string)

  datatype Answer = Nothing | Granted(session: Session) | Reported(status: Status)

  datatype Maps = Maps(inner: map<string, Session>, completed: map<string, Completed>)

  function Grant(s: Option<Session>): Answer {
    if s.Some? then Granted(s.value) else Nothing
  }

  function Report(s: Option<Status>): Answer {
    if s.Some? then Reported(s.value) else Nothing
  }

  /** What a call leaves in the maps. */
  function MapsAfter(m: Maps, c: Call): Maps {
    match c
    case Create(state, flow, now) => m.(inner := Swept(m.inner, now)[state := Session(flow, now + PLUGIN_AUTH_TTL)])
    case Peek(_, _, now) => m.(inner := Swept(m.inner, now))
    case LookUp(_, _, now) => m.(completed := SweptDone(m.completed, now))
    case RecordCompletion(state, initiator, status, now) =>
      m.(completed := SweptDone(m.completed, now)[state := Completed(initiator, status, now + PLUGIN_AUTH_TTL)])
    case Take(state, _, now) => m.(inner := Swept(m.inner, now) - {state})
    case TakeLoopback(state, now) => m.(inner := Swept(m.inner, now) - {state})
    case Revoke(state) => m.(inner := m.inner - {state})
  }

  /** What the swept maps answer. */
  function Answered(m: Maps, c: Call): Answer {
    match c
    case Create(_, _, _) => Nothing
    case Peek(state, initiator, now) => Grant(PeekIn(Swept(m.inner, now), state, initiator))
    case LookUp(state, initiator, now) => Report(StatusIn(SweptDone(m.completed, now), state, initiator))
    case RecordCompletion(_, _, _, _) => Nothing
    case Take(state, initiator, now) => Grant(PeekIn(Swept(m.inner, now), state, initiator))
    case TakeLoopback(state, now) => Grant(LoopbackIn(Swept(m.inner, now), state))
    case Revoke(_) => Nothing
  }

  /** The session object follows the run: each call has this effect and this answer. */
  method Serve(sessions: PluginAuthSessions, c: Call) returns (a: Answer)
    modifies sessions
    ensures Maps(sessions.inner, sessions.completed) == MapsAfter(old(Maps(sessions.inner, sessions.completed)), c)
    ensures a == Answered(old(Maps(sessions.inner, sessions.completed)), c)
  {
    a := Nothing;
    match c {
      case Create(state, flow, now) => sessions.Create(state, flow, now);
      case Peek(state, initiator, now) => { var s := sessions.Peek(state, initiator, now); a := Grant(s); }
      case LookUp(state, initiator, now) => { var s := sessions.LookUp(state, initiator, now); a := Report(s); }
      case RecordCompletion(state, initiator, status, now) => sessions.RecordCompletion(state, initiator, status, now);
      case Take(state, initiator, now) => { var s := sessions.Take(state, initiator, now); a := Grant(s); }
      case TakeLoopback(state, now) => { var s := sessions.TakeLoopbackCallback(state, now); a := Grant(s); }
      case Revoke(state) => sessions.Revoke(state);
    }
  }

  function RunMaps(h: seq<Call>): Maps {
    if h == [] then Maps(map[], map[]) else MapsAfter(RunMaps(h[..|h| - 1]), h[|h| - 1])
  }

  // ---------- The same answers from the history alone ----------

  predicate Consumes(c: Call, state: string) {
    (c.Take? || c.TakeLoopback? || c.Revoke?) && c.state == state
  }

  /** Where the session pending under `state` was created, unless it has been taken or revoked since. */
  function Creation(h: seq<Call>, state: string): Option<nat> {
    if h == [] then None
    else
      var c := h[|h| - 1];
      if c.Create? && c.state == state then Some(|h| - 1)
      else if Consumes(c, state) then None
      else Creation(h[..|h| - 1], state)
  }

  /** Where the last completion under `state` was recorded. */
  function Recording(h: seq<Call>, state: string): Option<nat> {
    if h == [] then None
    else
      var c := h[|h| - 1];
      if c.RecordCompletion? && c.state == state then Some(|h| - 1) else Recording(h[..|h| - 1], state)
  }

  lemma {:induction false} CreationIsCreate(h: seq<Call>, state: string)
    ensures var i := Creation(h, state);
      i.Some? ==> i.value < |h| && h[i.value].Create? && h[i.value].state == state
  {
    if h != [] { CreationIsCreate(h[..|h| - 1], state); }
  }

  lemma {:induction false} RecordingIsRecord(h: seq<Call>, state: string)
    ensures var i := Recording(h, state);
      i.Some? ==> i.value < |h| && h[i.value].RecordCompletion? && h[i.value].state == state
  {
    if h != [] { RecordingIsRecord(h[..|h| - 1], state); }
  }

  /** No call after position `i` that sweeps sessions read an instant at or past `expiry`. */
  predicate Unswept(h: seq<Call>, i: nat, expiry: nat) {
    forall k :: i < k < |h| && (h[k].Create? || h[k].Peek? || h[k].Take? || h[k].TakeLoopback?) ==> h[k].now < expiry
  }

  /** The same for the sweeps of recorded completions. */
  predicate UnsweptDone(h: seq<Call>, i: nat, expiry: nat) {
    forall k :: i < k < |h| && (h[k].LookUp? || h[k].RecordCompletion?) ==> h[k].now < expiry
  }

  function SessionOf(c: Call): Session
    requires c.Create?
  {
    Session(c.flow, c.now + 600 * SECOND)
  }

  function CompletedOf(c: Call): Completed
    requires c.RecordCompletion?
  {
    Completed(c.initiator, c.status, c.now + 600 * SECOND)
  }

  /** The session held under `state`: created, not consumed since, and not swept since. */
  function HeldSession(h: seq<Call>, state: string): Option<Session> {
    CreationIsCreate(h, state);
    var i := Creation(h, state);
    if i.Some? && Unswept(h, i.value, SessionOf(h[i.value]).expiresAt) then Some(SessionOf(h[i.value])) else None
  }

  function HeldCompletion(h: seq<Call>, state: string): Option<Completed> {
    RecordingIsRecord(h, state);
    var i := Recording(h, state);
    if i.Some? && UnsweptDone(h, i.value, CompletedOf(h[i.value]).expiresAt)
    then Some(CompletedOf(h[i.value])) else None
  }

  lemma UnsweptGrows(h: seq<Call>, c: Call, i: nat, expiry: nat)
    requires i < |h|
    ensures Unswept(h + [c], i, expiry) <==>
      (Unswept(h, i, expiry) && (c.Create? || c.Peek? || c.Take? || c.TakeLoopback? ==> c.now < expiry))
    ensures UnsweptDone(h + [c], i, expiry) <==>
      (UnsweptDone(h, i, expiry) && (c.LookUp? || c.RecordCompletion? ==> c.now < expiry))
  {
    assert forall k :: i < k < |h| ==> (h + [c])[k] == h[k];
    assert (h + [c])[|h|] == c;
  }

  function Find<T>(m: map<string, T>, state: string): Option<T> {
    if state in m then Some(m[state]) else None
  }

  lemma {:induction false} HeldSessionStep(h: seq<Call>, c: Call, m: Maps, state: string)
    requires Find(m.inner, state) == HeldSession(h, state)
    ensures Find(MapsAfter(m, c).inner, state) == HeldSession(h + [c], state)
  {
    assert (h + [c])[..|h|] == h;
    CreationIsCreate(h, state);
    var i := Creation(h, state);
    if i.Some? { UnsweptGrows(h, c, i.value, SessionOf(h[i.value]).expiresAt); }
  }

  lemma {:induction false} HeldCompletionStep(h: seq<Call>, c: Call, m: Maps, state: string)
    requires Find(m.completed, state) == HeldCompletion(h, state)
    ensures Find(MapsAfter(m, c).completed, state) == HeldCompletion(h + [c], state)
  {
    assert (h + [c])[..|h|] == h;
    RecordingIsRecord(h, state);
    var i := Recording(h, state);
    if i.Some? { UnsweptGrows(h, c, i.value, CompletedOf(h[i.value]).expiresAt); }
  }

  /** For every order of the calls: a session is in the map exactly when it is pending and no sweeping call since its
      creation read an instant at or past its expiry, and likewise for completions. */
  lemma {:induction false} MapsHoldExactly(h: seq<Call>, state: string)
    ensures Find(RunMaps(h).inner, state) == HeldSession(h, state)
    ensures Find(RunMaps(h).completed, state) == HeldCompletion(h, state)
  {
    if h != [] {
      var before, c := h[..|h| - 1], h[|h| - 1];
      MapsHoldExactly(before, state);
      assert h == before + [c];
      HeldSessionStep(before, c, RunMaps(before), state);
      HeldCompletionStep(before, c, RunMaps(before), state);
    }
  }

  function Ours(s: Option<Session>, initiator: string, now: nat): Option<Session> {
    if s.Some? && now < s.value.expiresAt && s.value.flow.initiator == initiator then s else None
  }

  /** The answer to a call, given the session and the completion found under its state. */
  function AnswerFrom(session: Option<Session>, done: Option<Completed>, c: Call): Answer {
    match c
    case Create(_, _, _) => Nothing
    case Peek(_, initiator, now) => Grant(Ours(session, initiator, now))
    case LookUp(_, initiator, now) =>
      if done.Some? && now < done.value.expiresAt && done.value.initiator == initiator
      then Reported(done.value.status) else Nothing
    case RecordCompletion(_, _, _, _) => Nothing
    case Take(_, initiator, now) => Grant(Ours(session, initiator, now))
    case TakeLoopback(_, now) =>
      if session.Some? && now < session.value.expiresAt && LoopbackAllowed(session.value.flow)
      then Granted(session.value) else Nothing
    case Revoke(_) => Nothing
  }

  lemma AnsweredFromFound(m: Maps, c: Call)
    ensures Answered(m, c) == AnswerFrom(Find(m.inner, c.state), Find(m.completed, c.state), c)
  {
  }

  /** Every answer is the one the history prescribes, whatever the order of the calls and their instants. */
  lemma AnswersFollowHistory(h: seq<Call>, c: Call)
    ensures Answered(RunMaps(h), c) == AnswerFrom(HeldSession(h, c.state), HeldCompletion(h, c.state), c)
  {
    MapsHoldExactly(h, c.state);
    AnsweredFromFound(RunMaps(h), c);
  }

  /** What the call at position `i` of a run was answered. */
  function AnswerAt(h: seq<Call>, i: nat): Answer
    requires i < |h|
  {
    Answered(RunMaps(h[..i]), h[i])
  }

  /** What a status query reports whose first half is the call at `i` and whose second half, made if the first finds no
      session, is the call at `j`. Other calls may come between. */
  function StatusReported(h: seq<Call>, i: nat, j: nat): Answer
    requires i < j < |h|
  {
    if AnswerAt(h, i).Granted? then Reported(PENDING) else AnswerAt(h, j)
  }

  /** However its halves are interleaved with other calls, a status query reports pending exactly when the initiator's
      session is held at its first half, and otherwise the initiator's completion held at its second half. */
  lemma StatusFollowsHistory(h: seq<Call>, i: nat, j: nat)
    requires i < j < |h| && h[i].Peek? && h[j].LookUp?
    requires h[i].state == h[j].state && h[i].initiator == h[j].initiator
    ensures var state, initiator := h[i].state, h[i].initiator;
      var done := HeldCompletion(h[..j], state);
      StatusReported(h, i, j) ==
        if Ours(HeldSession(h[..i], state), initiator, h[i].now).Some? then Reported(PENDING)
        else if done.Some? && done.value.initiator == initiator && h[j].now < done.value.expiresAt
        then Reported(done.value.status)
        else Nothing
  {
    AnswersFollowHistory(h[..i], h[i]);
    AnswersFollowHistory(h[..j], h[j]);
  }

  // ---------- When instants do not step back ----------

  /** Instants never step back. */
  predicate Ordered(h: seq<Call>) {
    forall i, j :: 0 <= i < j < |h| && !h[i].Revoke? && !h[j].Revoke? ==> h[i].now <= h[j].now
  }

  /** Created and not taken or revoked since. Nothing is ever swept. */
  function PendingSession(h: seq<Call>, state: string): Option<Session> {
    CreationIsCreate(h, state);
    var i := Creation(h, state);
    if i.Some? then Some(SessionOf(h[i.value])) else None
  }

  function LastCompletion(h: seq<Call>, state: string): Option<Completed> {
    RecordingIsRecord(h, state);
    var i := Recording(h, state);
    if i.Some? then Some(CompletedOf(h[i.value])) else None
  }

  /** Then lazy sweeping is invisible: every answer is the one prescribed by what was created and not taken or revoked,
      and by its age at the instant of the call alone. */
  lemma SweepingIsInvisible(h: seq<Call>, c: Call)
    requires Ordered(h + [c])
    ensures Answered(RunMaps(h), c) == AnswerFrom(PendingSession(h, c.state), LastCompletion(h, c.state), c)
  {
    AnswersFollowHistory(h, c);
    if !c.Revoke? {
      forall k | 0 <= k < |h| && !h[k].Revoke? ensures h[k].now <= c.now {
        assert (h + [c])[k] == h[k] && (h + [c])[|h|] == c;
      }
    }
  }

  /** When they do step back, sweeping shows: a session under ten minutes old by the clock of the caller is refused,
      because a call that read a later instant took the lock first. */
  lemma SweepingCanShow(f: Flow)
    ensures var h := [Create("s", f, 0), Peek("other", f.initiator, PLUGIN_AUTH_TTL)];
      var c := Take("s", f.initiator, 1);
      && AnswerFrom(PendingSession(h, "s"), LastCompletion(h, "s"), c).Granted?
      && Answered(RunMaps(h), c) == Nothing
  {
    var h := [Create("s", f, 0), Peek("other", f.initiator, PLUGIN_AUTH_TTL)];
    assert h[..1] == [Create("s", f, 0)];
    assert Creation(h, "s") == Creation(h[..1], "s") == Some(0);
    AnswersFollowHistory(h, Take("s", f.initiator, 1));
    assert !Unswept(h, 0, PLUGIN_AUTH_TTL) by { assert h[1].now == PLUGIN_AUTH_TTL; }
  }

  // ---------- One-time use, in every order of calls ----------

  lemma {:induction false} StaysConsumed(h: seq<Call>, i: nat, state: string)
    requires i < |h| && Consumes(h[i], state)
    requires forall k :: i < k < |h| ==> !(h[k].Create? && h[k].state == state)
    ensures Creation(h, state).None?
    decreases |h|
  {
    if i < |h| - 1 { StaysConsumed(h[..|h| - 1], i, state); }
  }

  /** After any attempt to consume a state, successful or not, or a revocation, no call is granted that state again
      unless it is created anew. */
  lemma NeverAfterConsumption(h: seq<Call>, c: Call, i: nat)
    requires i < |h| && Consumes(h[i], c.state)
    requires forall k :: i < k < |h| ==> !(h[k].Create? && h[k].state == c.state)
    ensures !Answered(RunMaps(h), c).Granted?
  {
    StaysConsumed(h, i, c.state);
    AnswersFollowHistory(h, c);
  }

  /** State tokens are drawn fresh. */
  predicate DistinctTokens(h: seq<Call>) {
    forall i, j :: 0 <= i < j < |h| && h[i].Create? && h[j].Create? ==> h[i].state != h[j].state
  }

  lemma GrantWasCreated(h: seq<Call>, i: nat) returns (k: nat)
    requires i < |h| && AnswerAt(h, i).Granted?
    ensures k < i && h[k].Create? && h[k].state == h[i].state
  {
    AnswersFollowHistory(h[..i], h[i]);
    CreationIsCreate(h[..i], h[i].state);
    k := Creation(h[..i], h[i].state).value;
  }

  /** With fresh tokens, `take` and `take_loopback_callback` together grant each state at most once in any run. */
  lemma GrantedAtMostOnce(h: seq<Call>, i: nat, j: nat)
    requires DistinctTokens(h) && i < j < |h| && h[i].state == h[j].state
    requires (h[i].Take? || h[i].TakeLoopback?) && (h[j].Take? || h[j].TakeLoopback?)
    requires AnswerAt(h, i).Granted?
    ensures !AnswerAt(h, j).Granted?
  {
    var created := GrantWasCreated(h, i);
    var before := h[..j];
    assert before[i] == h[i] && forall k :: i < k < j ==> before[k] == h[k];
    NeverAfterConsumption(before, h[j], i);
  }
}
