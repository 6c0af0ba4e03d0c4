/** The state of `DiscordPresenceManager` as a value, and each of its
    operations as a function from the old state (and the outcome of the
    external call it makes) to the new one. The class in Manager.dfy is proved
    against these functions; the lemmas here are the properties of the session
    state machine.

    Time is a natural number of milliseconds since the Unix epoch. */
module Session {
  import opened Types
  import opened Payload

  /** `try_reconnect` makes no attempt until this many whole seconds have
      passed since the previous one. */
  const RECONNECT_INTERVAL_SECS: nat := 5

  /** What `get_current_activity_duration` answers for an empty list. */
  const DEFAULT_DURATION: u64 := 30

  const NO_ACTIVITIES: string := "❌ Sin actividades configuradas"
  const STATUS_PREFIX: string := "📊 Actividad actual: "

  /** The fields of the manager. `hasClient` stands for `client.is_some()`. */
  datatype SessionState = SessionState(
    appId: string,
    activities: seq<ActivityConfig>,
    index: nat,
    connected: bool,
    hasClient: bool,
    lastAttempt: nat)

  /** The error strings of the source, by the call that failed. */
  datatype Failure = ConnectFailed | PublishFailed | ClearFailed

  datatype Outcome = Ok | Err(failure: Failure)

  /** The outcome of `connect`, with the state it leaves. */
  datatype Connected = Connected(session: SessionState, outcome: Outcome)

  /** The outcome of `set_current_activity`: new state, result, and the payload
      handed to the client, if any was. */
  datatype Published = Published(session: SessionState, outcome: Outcome, sent: Option<Presence>)

  /** The outcome of `try_reconnect`, with the payloads its restoring publish
      handed to the client. */
  datatype Reconnected = Reconnected(session: SessionState, reconnected: bool, sent: seq<Presence>)

  /** A publish's payload, if any, as a list of what reached the client. */
  function Payloads(sent: Option<Presence>): (r: seq<Presence>)
    ensures sent.None? ==> r == []
    ensures sent.Some? ==> r == [sent.value]
  {
    if sent.Some? then [sent.value] else []
  }

  /** The index is a position of the list, and 0 when the list is empty. */
  predicate Valid(s: SessionState) {
    if s.activities == [] then s.index == 0 else s.index < |s.activities|
  }

  /** `DiscordPresenceManager::new`: no client, first activity, last attempt at the epoch. */
  function Initial(appId: string, activities: seq<ActivityConfig>): (s: SessionState)
    ensures Valid(s) && !IsAlive(s)
    ensures !s.hasClient && !s.connected && s.lastAttempt == 0
    ensures s.appId == appId && s.activities == activities && s.index == 0
  {
    SessionState(appId, activities, 0, false, false, 0)
  }

  /** `is_connection_alive`. */
  predicate IsAlive(s: SessionState) {
    s.connected && s.hasClient
  }

  /** The activity being shown, if the list is not empty. */
  function Current(s: SessionState): (r: Option<ActivityConfig>)
    requires Valid(s)
    ensures r.Some? <==> s.activities != []
    ensures r.Some? ==> r.value == s.activities[s.index]
  {
    if s.activities == [] then None else Some(s.activities[s.index])
  }

  /** `get_current_activity_duration`. */
  function Duration(s: SessionState): (d: u64)
    requires Valid(s)
    ensures s.activities == [] ==> d == DEFAULT_DURATION
    ensures s.activities != [] ==> d == s.activities[s.index].durationSeconds
  {
    match Current(s)
    case None => DEFAULT_DURATION
    case Some(a) => a.durationSeconds
  }

  // ---------------------------------------------------------------- rotation

  /** The index `next_activity` moves to in a list of `n` entries. */
  function NextIndex(i: nat, n: nat): (j: nat)
    requires i < n
    ensures j < n
    ensures i + 1 < n ==> j == i + 1
    ensures i + 1 == n ==> j == 0
  {
    (i + 1) % n
  }

  /** `next_activity`: one step round the list; nothing on an empty list. */
  function Advance(s: SessionState): (r: SessionState)
    requires Valid(s)
    ensures Valid(r)
    ensures r == s.(index := r.index)
    ensures s.activities == [] ==> r == s
    ensures s.activities != [] ==> r.index == NextIndex(s.index, |s.activities|)
  {
    if s.activities == [] then s
    else s.(index := NextIndex(s.index, |s.activities|))
  }

  /** `k` successive calls of `next_activity`. */
  function AdvanceN(s: SessionState, k: nat): (r: SessionState)
    requires Valid(s)
    ensures Valid(r)
    decreases k
  {
    if k == 0 then s else AdvanceN(Advance(s), k - 1)
  }

  /** `k` index steps in a list of `n` entries. */
  function NextIndexN(i: nat, k: nat, n: nat): (j: nat)
    requires i < n
    ensures j < n
    decreases k
  {
    if k == 0 then i else NextIndexN(NextIndex(i, n), k - 1, n)
  }

  /** `k` advances move only the index, by `k` index steps. */
  lemma {:induction false} AdvanceNMovesIndex(s: SessionState, k: nat)
    requires Valid(s) && s.activities != []
    ensures AdvanceN(s, k) == s.(index := NextIndexN(s.index, k, |s.activities|))
    decreases k
  {
    if k > 0 {
      AdvanceNMovesIndex(Advance(s), k - 1);
    }
  }

  /** Steps compose: `a + b` steps are `a` steps and then `b`. */
  lemma {:induction false} NextIndexNSplit(i: nat, a: nat, b: nat, n: nat)
    requires i < n
    ensures NextIndexN(i, a + b, n) == NextIndexN(NextIndexN(i, a, n), b, n)
    decreases a
  {
    if a > 0 {
      NextIndexNSplit(NextIndex(i, n), a - 1, b, n);
      assert a + b - 1 == (a - 1) + b;
    }
  }

  /** Short of the end of the list, `m` steps move `m` places forward. */
  lemma {:induction false} NextIndexNForward(i: nat, m: nat, n: nat)
    requires i + m < n
    ensures NextIndexN(i, m, n) == i + m
    decreases m
  {
    if m > 0 {
      NextIndexNForward(i + 1, m - 1, n);
    }
  }

  /** `n` steps in a list of `n` entries come back to the start: the steps to
      the last entry, the wrap to 0, and the steps back up to `i`. */
  lemma {:induction false} NextIndexNCycle(i: nat, n: nat)
    requires i < n
    ensures NextIndexN(i, n, n) == i
  {
    var toLast := n - 1 - i;
    NextIndexNForward(i, toLast, n);
    NextIndexNSplit(i, toLast, 1 + i, n);
    NextIndexNSplit(n - 1, 1, i, n);
    assert NextIndexN(n - 1, 1, n) == NextIndexN(0, 0, n) == 0;
    NextIndexNForward(0, i, n);
  }

  /** Short of the end of the list, `k` advances move the index `k` places. */
  lemma AdvanceNForward(s: SessionState, k: nat)
    requires Valid(s) && s.index + k < |s.activities|
    ensures AdvanceN(s, k) == s.(index := s.index + k)
  {
    AdvanceNMovesIndex(s, k);
    NextIndexNForward(s.index, k, |s.activities|);
  }

  /** Rotation is a cycle: `len` steps bring the state back to where it was. */
  lemma RotationIsCycle(s: SessionState)
    requires Valid(s) && s.activities != []
    ensures AdvanceN(s, |s.activities|) == s
  {
    AdvanceNMovesIndex(s, |s.activities|);
    NextIndexNCycle(s.index, |s.activities|);
  }

  /** Rotation is periodic: `len + k` advances land where `k` do. */
  lemma RotationIsPeriodic(s: SessionState, k: nat)
    requires Valid(s) && s.activities != []
    ensures AdvanceN(s, |s.activities| + k) == AdvanceN(s, k)
  {
    var n := |s.activities|;
    AdvanceNMovesIndex(s, n + k);
    AdvanceNMovesIndex(s, k);
    NextIndexNSplit(s.index, n, k, n);
    NextIndexNCycle(s.index, n);
  }

  /** On an empty list no number of steps changes anything. */
  lemma {:induction false} AdvanceNEmpty(s: SessionState, k: nat)
    requires Valid(s) && s.activities == []
    ensures AdvanceN(s, k) == s
    decreases k
  {
    if k > 0 {
      AdvanceNEmpty(Advance(s), k - 1);
    }
  }

  /** `reload_activities`: the list is replaced wholesale; the index is kept if
      it is still a position of the new list and reset to 0 otherwise; the
      application id and the connection are untouched. */
  function Reload(s: SessionState, activities: seq<ActivityConfig>): (r: SessionState)
    ensures Valid(r)
    ensures r.activities == activities
    ensures s.index < |activities| ==> r.index == s.index
    ensures |activities| <= s.index ==> r.index == 0
    ensures r == s.(activities := r.activities, index := r.index)
  {
    var index := if s.index >= |activities| then 0 else s.index;
    s.(activities := activities, index := index)
  }

  /** Reloading the list that is already loaded changes nothing. */
  lemma ReloadSameList(s: SessionState)
    requires Valid(s)
    ensures Reload(s, s.activities) == s
  {
  }

  // -------------------------------------------------------------- connection

  /** `last_connection_attempt.elapsed()` succeeded and showed fewer than five
      whole seconds. When the clock has gone back past the last attempt,
      `elapsed()` fails and the attempt is not held back. */
  predicate RateLimited(s: SessionState, now: nat) {
    s.lastAttempt <= now && (now - s.lastAttempt) / 1000 < RECONNECT_INTERVAL_SECS
  }

  /** `connect`: stamp the attempt, then, if the IPC client was created and
      connected (`ok`), store it and mark the session connected. On failure the
      client and the flag are left as they were. */
  function Connect(s: SessionState, now: nat, ok: bool): (r: Connected)
    ensures r.session.lastAttempt == now
    ensures r.outcome.Ok? <==> ok
    ensures ok ==> IsAlive(r.session)
    ensures ok ==> r.session == s.(lastAttempt := now, connected := true, hasClient := true)
    ensures !ok ==> r.session == s.(lastAttempt := now)
    ensures !ok ==> r.outcome == Err(ConnectFailed)
  {
    var stamped := s.(lastAttempt := now);
    if ok then Connected(stamped.(hasClient := true, connected := true), Ok)
    else Connected(stamped, Err(ConnectFailed))
  }

  /** `set_current_activity`: without a client, or with an empty list, it does
      nothing and succeeds. Otherwise it sends the payload of the current
      activity stamped with `now` in whole seconds; if the transport accepts it
      (`ok`) the session is marked connected, if not the client is dropped and
      the session marked disconnected. */
  function Publish(s: SessionState, now: nat, ok: bool): (r: Published)
    requires Valid(s)
    ensures Valid(r.session)
    ensures r.session == s.(connected := r.session.connected, hasClient := r.session.hasClient)
    ensures !s.hasClient || s.activities == [] ==> r == Published(s, Ok, None)
    ensures s.hasClient && s.activities != [] ==>
      r.sent == Some(Build(s.activities[s.index], now / 1000))
    ensures s.hasClient && s.activities != [] && ok ==> r.outcome == Ok && IsAlive(r.session)
    ensures s.hasClient && s.activities != [] && !ok ==>
      r.outcome == Err(PublishFailed) && !r.session.connected && !r.session.hasClient
  {
    if !s.hasClient || s.activities == [] then Published(s, Ok, None)
    else
      var payload := Build(s.activities[s.index], now / 1000);
      if ok then Published(s.(connected := true), Ok, Some(payload))
      else Published(s.(connected := false, hasClient := false), Err(PublishFailed), Some(payload))
  }

  /** A failed publish always leaves the session dead, so the next rotation tick
      or `NextActivity` goes through `try_reconnect`. */
  lemma PublishFailureKillsSession(s: SessionState, now: nat, ok: bool)
    requires Valid(s)
    ensures Publish(s, now, ok).outcome.Err? ==> !IsAlive(Publish(s, now, ok).session)
    ensures Publish(s, now, ok).outcome.Err? <==> s.hasClient && s.activities != [] && !ok
  {
  }

  /** `try_reconnect`: held back by the rate limit without touching anything;
      otherwise one `connect`, and on success one restoring publish whose
      failure is ignored. */
  function TryReconnect(s: SessionState, now: nat, connectOk: bool, restoreOk: bool): (r: Reconnected)
    requires Valid(s)
    ensures Valid(r.session)
    ensures RateLimited(s, now) ==> r == Reconnected(s, false, [])
    ensures !RateLimited(s, now) ==> r.session.lastAttempt == now
    ensures r.reconnected <==> !RateLimited(s, now) && connectOk
    ensures r.session.activities == s.activities && r.session.index == s.index
    ensures r.session.appId == s.appId
    ensures !RateLimited(s, now) && !connectOk ==> r.session == s.(lastAttempt := now)
    ensures r.reconnected ==> IsAlive(r.session) == (restoreOk || s.activities == [])
    ensures !r.reconnected || s.activities == [] ==> r.sent == []
    ensures r.reconnected && s.activities != [] ==> r.sent == [Build(s.activities[s.index], now / 1000)]
  {
    if RateLimited(s, now) then Reconnected(s, false, [])
    else
      var c := Connect(s, now, connectOk);
      if c.outcome.Ok? then
        var p := Publish(c.session, now, restoreOk);
        Reconnected(p.session, true, Payloads(p.sent))
      else Reconnected(c.session, false, [])
  }

  /** Two reconnects less than five seconds apart make at most one attempt:
      after a real attempt at `t1`, a call at any `t2` in [t1, t1 + 5 s) is
      held back and changes nothing. */
  lemma ReconnectAtMostOncePerInterval(s: SessionState, t1: nat, t2: nat, c1: bool, r1: bool, c2: bool, r2: bool)
    requires Valid(s)
    requires !RateLimited(s, t1)
    requires t1 <= t2 < t1 + 1000 * RECONNECT_INTERVAL_SECS
    ensures RateLimited(TryReconnect(s, t1, c1, r1).session, t2)
    ensures var s1 := TryReconnect(s, t1, c1, r1).session;
      TryReconnect(s1, t2, c2, r2) == Reconnected(s1, false, [])
  {
  }

  /** A new manager's attempt stamp is the epoch, so once the clock is five
      seconds past it the first reconnect is never held back. */
  lemma FirstReconnectNotHeldBack(appId: string, activities: seq<ActivityConfig>, now: nat)
    requires now >= 1000 * RECONNECT_INTERVAL_SECS
    ensures !RateLimited(Initial(appId, activities), now)
  {
  }

  /** Once five whole seconds have passed, the limit lifts again. */
  lemma RateLimitExpires(s: SessionState, now: nat)
    requires now >= s.lastAttempt + 1000 * RECONNECT_INTERVAL_SECS
    ensures !RateLimited(s, now)
  {
  }

  /** `clear_activity`: asks the client, if there is one, to clear; a failure
      is reported but the connection state is never changed. */
  function Clear(s: SessionState, ok: bool): (r: Outcome)
    ensures r.Err? <==> s.hasClient && !ok
    ensures r.Err? ==> r == Err(ClearFailed)
  {
    if s.hasClient && !ok then Err(ClearFailed) else Ok
  }

  /** `disconnect`: closes and drops the client; always ends disconnected. */
  function Disconnect(s: SessionState): (r: SessionState)
    ensures !IsAlive(r) && !r.connected && !r.hasClient
    ensures r.activities == s.activities && r.index == s.index
    ensures r == s.(connected := false, hasClient := false)
  {
    s.(connected := false, hasClient := false)
  }

  /** Disconnecting twice is disconnecting once. */
  lemma DisconnectIdempotent(s: SessionState)
    ensures Disconnect(Disconnect(s)) == s.(connected := false, hasClient := false)
  {
  }

  // ------------------------------------------------------------------ status

  /** The decimal digits of `n`, most significant first, as `format!` writes them. */
  function Decimal(n: nat): (r: string)
    ensures |r| >= 1
    ensures forall i :: 0 <= i < |r| ==> '0' <= r[i] <= '9'
    decreases n
  {
    if n < 10 then [Digit(n)] else Decimal(n / 10) + [Digit(n % 10)]
  }

  function Digit(d: nat): (c: char)
    requires d < 10
    ensures '0' <= c <= '9'
  {
    ['0', '1', '2', '3', '4', '5', '6', '7', '8', '9'][d]
  }

  /** The number a string of decimal digits stands for. */
  function DecimalValue(r: string): nat
    requires forall i :: 0 <= i < |r| ==> '0' <= r[i] <= '9'
    decreases |r|
  {
    if r == [] then 0
    else 10 * DecimalValue(r[..|r| - 1]) + ((r[|r| - 1] as int) - ('0' as int))
  }

  /** The position numbers in a status line read back as the numbers they show. */
  lemma {:induction false} DecimalRoundTrip(n: nat)
    ensures DecimalValue(Decimal(n)) == n
    decreases n
  {
    var r := Decimal(n);
    if n < 10 {
      assert r[..|r| - 1] == [];
    } else {
      DecimalRoundTrip(n / 10);
      assert r[..|r| - 1] == Decimal(n / 10);
    }
  }

  /** What `get_status` reports: nothing configured, or the current activity
      with its 1-based position in the list. */
  datatype StatusLine = NoActivity | Showing(name: string, position: nat, total: nat, details: string)

  function StatusOf(s: SessionState): (r: StatusLine)
    requires Valid(s)
    ensures r.NoActivity? <==> s.activities == []
    ensures r.Showing? ==> 1 <= r.position <= r.total == |s.activities|
    ensures r.Showing? ==> r.name == s.activities[r.position - 1].name
    ensures r.Showing? ==> r.details == s.activities[r.position - 1].details
    ensures r.Showing? ==> r.position - 1 == s.index
  {
    match Current(s)
    case None => NoActivity
    case Some(a) => Showing(a.name, s.index + 1, |s.activities|, a.details)
  }

  /** The text `get_status` returns for a status line. */
  function Render(line: StatusLine): (r: string)
    ensures line.NoActivity? ==> r == NO_ACTIVITIES
    ensures line.Showing? ==> |r| > |STATUS_PREFIX| && r[..|STATUS_PREFIX|] == STATUS_PREFIX
  {
    match line
    case NoActivity => NO_ACTIVITIES
    case Showing(name, position, total, details) =>
      STATUS_PREFIX + name + " (" + Decimal(position) + "/" + Decimal(total) + ") - " + details
  }

  /** The two kinds of status text never coincide. */
  lemma RenderDistinguishesEmpty(line: StatusLine)
    ensures Render(line) == NO_ACTIVITIES <==> line.NoActivity?
  {
    if line.Showing? {
      var r := Render(line);
      assert r[0] == STATUS_PREFIX[0];
      assert NO_ACTIVITIES[0] != STATUS_PREFIX[0];
    }
  }

  /** `get_status`: the "no activities" message exactly when the list is empty. */
  function Status(s: SessionState): (r: string)
    requires Valid(s)
    ensures r == NO_ACTIVITIES <==> s.activities == []
  {
    RenderDistinguishesEmpty(StatusOf(s));
    Render(StatusOf(s))
  }
}
