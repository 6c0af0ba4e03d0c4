/** The two tasks that drive the manager, as functions over values: the
    command dispatcher (one command at a time, in arrival order) and one
    iteration of the rotation loop, plus the startup and shutdown sequences of
    `main`. Each lock-held region is one atomic step; the outcomes of the IPC
    calls, the config load and the clock are fields of an environment value. */
module Control {
  import opened Types
  import opened Payload
  import opened Session

  /** `AppCommand`. */
  datatype Command = Pause | Resume | NextActivity | ReloadConfig | ShowStatus | ToggleConsole | OpenConfig | Exit

  /** `AppState`. */
  datatype Flags = Flags(paused: bool, running: bool)

  /** Everything the dispatcher can change. */
  datatype World = World(flags: Flags, session: SessionState)

  /** What the outside world answers while one command is handled: the time,
      whether a reconnect's `connect` and its restoring publish succeed, whether
      the command's own publish succeeds, and what `load_config` returns. */
  datatype Env = Env(now: nat, connectOk: bool, restoreOk: bool, publishOk: bool, load: LoadResult)

  /** The world after one command, whether the dispatcher loop goes on, and
      the payloads handed to the client meanwhile, in order. */
  datatype Step = Step(world: World, keepGoing: bool, sent: seq<Presence>)

  /** The world after a prefix of the queue, how many commands were taken,
      and every payload handed to the client, in order. */
  datatype Run = Run(world: World, processed: nat, sent: seq<Presence>)

  /** The session after one manager-touching arm, and the payloads it sent. */
  datatype Arm = Arm(session: SessionState, sent: seq<Presence>)

  predicate Valid(w: World) {
    Session.Valid(w.session)
  }

  /** The initial `AppState`: not paused, running. */
  const InitialFlags: Flags := Flags(false, true)

  /** The `NextActivity` arm: reconnect first if the session is down, skip if
      that fails, otherwise advance once and publish. */
  function NextCommand(s: SessionState, env: Env): (r: Arm)
    requires Session.Valid(s)
    ensures Session.Valid(r.session)
  {
    var ready :=
      if IsAlive(s) then Reconnected(s, true, [])
      else TryReconnect(s, env.now, env.connectOk, env.restoreOk);
    if !ready.reconnected then Arm(ready.session, ready.sent)
    else
      var p := Publish(Advance(ready.session), env.now, env.publishOk);
      Arm(p.session, ready.sent + Payloads(p.sent))
  }

  /** The `ReloadConfig` arm: on a successful load the activity list is
      replaced (the new application id is ignored) and republished; on a
      failed load nothing changes. */
  function ReloadCommand(s: SessionState, env: Env): (r: Arm)
    requires Session.Valid(s)
    ensures Session.Valid(r.session)
  {
    match env.load
    case LoadFailed(_) => Arm(s, [])
    case Loaded(config) =>
      var p := Publish(Reload(s, config.activities), env.now, env.publishOk);
      Arm(p.session, Payloads(p.sent))
  }

  /** One arm of the dispatcher `match`. */
  function Dispatch(w: World, cmd: Command, env: Env): (r: Step)
    requires Valid(w)
    ensures Valid(r.world)
    ensures r.keepGoing <==> cmd != Exit
  {
    match cmd
    case Pause => Step(w.(flags := w.flags.(paused := !w.flags.paused)), true, [])
    case Resume => Step(w.(flags := w.flags.(paused := false)), true, [])
    case NextActivity =>
      var a := NextCommand(w.session, env);
      Step(w.(session := a.session), true, a.sent)
    case ReloadConfig =>
      var a := ReloadCommand(w.session, env);
      Step(w.(session := a.session), true, a.sent)
    case ShowStatus => Step(w, true, [])
    case ToggleConsole => Step(w, true, [])
    case OpenConfig => Step(w, true, [])
    case Exit => Step(w.(flags := w.flags.(running := false)), false, [])
  }

  /** The dispatcher loop over a queue of commands, each paired with the
      environment it meets; it stops after the first `Exit`. */
  function RunQueue(w: World, queue: seq<(Command, Env)>): (r: Run)
    requires Valid(w)
    ensures Valid(r.world)
    ensures r.processed <= |queue|
    decreases |queue|
  {
    if queue == [] then Run(w, 0, [])
    else
      var step := Dispatch(w, queue[0].0, queue[0].1);
      if !step.keepGoing then Run(step.world, 1, step.sent)
      else
        var rest := RunQueue(step.world, queue[1..]);
        Run(rest.world, rest.processed + 1, step.sent + rest.sent)
  }

  // --------------------------------------------------------- dispatcher laws

  /** `Pause` toggles: twice is the identity, and it touches only the flag. */
  lemma PauseTwiceIsIdentity(w: World, e1: Env, e2: Env)
    requires Valid(w)
    ensures Dispatch(w, Pause, e1).world.flags.paused == !w.flags.paused
    ensures Dispatch(Dispatch(w, Pause, e1).world, Pause, e2).world == w
  {
  }

  /** `Resume` clears the flag whatever it was; a second one changes nothing. */
  lemma ResumeIdempotent(w: World, e1: Env, e2: Env)
    requires Valid(w)
    ensures !Dispatch(w, Resume, e1).world.flags.paused
    ensures Dispatch(Dispatch(w, Resume, e1).world, Resume, e2) == Dispatch(w, Resume, e1)
  {
  }

  /** `Exit` ends the loop with `is_running` false and the session untouched. */
  lemma ExitStops(w: World, env: Env)
    requires Valid(w)
    ensures Dispatch(w, Exit, env) == Step(World(w.flags.(running := false), w.session), false, [])
  {
  }

  /** The read-only and delegated commands change nothing. */
  lemma PassiveCommandsChangeNothing(w: World, cmd: Command, env: Env)
    requires Valid(w)
    requires cmd == ShowStatus || cmd == ToggleConsole || cmd == OpenConfig
    ensures Dispatch(w, cmd, env) == Step(w, true, [])
  {
  }

  /** `NextActivity` when the session is down and the reconnect does not
      happen (held back, or `connect` fails): the index and list stay. */
  lemma NextActivitySkippedWhenReconnectFails(w: World, env: Env)
    requires Valid(w)
    requires !IsAlive(w.session)
    requires RateLimited(w.session, env.now) || !env.connectOk
    ensures Dispatch(w, NextActivity, env).world.session.index == w.session.index
    ensures Dispatch(w, NextActivity, env).world.session.activities == w.session.activities
    ensures Dispatch(w, NextActivity, env).world.flags == w.flags
    ensures Dispatch(w, NextActivity, env).sent == []
  {
  }

  /** Otherwise `NextActivity` advances exactly once, even when the
      reconnect's restoring publish failed and left no client (then the
      command's own publish silently does nothing). On a live session the new
      current activity is sent; after a reconnect whose restore succeeded the
      old one is sent first, then the new one. */
  lemma NextActivityAdvancesOnce(w: World, env: Env)
    requires Valid(w)
    requires IsAlive(w.session) || (!RateLimited(w.session, env.now) && env.connectOk)
    ensures Dispatch(w, NextActivity, env).world.session.index == Advance(w.session).index
    ensures Dispatch(w, NextActivity, env).world.session.activities == w.session.activities
    ensures Dispatch(w, NextActivity, env).world.flags == w.flags
    ensures w.session.activities == [] ==> Dispatch(w, NextActivity, env).sent == []
    ensures IsAlive(w.session) && w.session.activities != [] ==>
      Dispatch(w, NextActivity, env).sent ==
        [Build(w.session.activities[Advance(w.session).index], env.now / 1000)]
    ensures !IsAlive(w.session) && env.restoreOk && w.session.activities != [] ==>
      Dispatch(w, NextActivity, env).sent ==
        [ Build(w.session.activities[w.session.index], env.now / 1000),
          Build(w.session.activities[Advance(w.session).index], env.now / 1000) ]
  {
  }

  /** A reconnect whose restoring publish fails drops the client again, and
      the command's own publish is then a no-op that reports success. */
  lemma NextActivityAfterFailedRestore(w: World, env: Env)
    requires Valid(w)
    requires !IsAlive(w.session) && !RateLimited(w.session, env.now) && env.connectOk
    requires !env.restoreOk && w.session.activities != []
    ensures var s := Dispatch(w, NextActivity, env).world.session;
      !s.hasClient && !IsAlive(s) && s.index == Advance(w.session).index
    ensures var ready := TryReconnect(w.session, env.now, env.connectOk, env.restoreOk).session;
      Publish(Advance(ready), env.now, env.publishOk) == Published(Advance(ready), Ok, None)
    ensures Dispatch(w, NextActivity, env).sent ==
      [Build(w.session.activities[w.session.index], env.now / 1000)]
  {
  }

  /** A failed config load leaves the whole world as it was. */
  lemma FailedReloadChangesNothing(w: World, env: Env)
    requires Valid(w)
    requires env.load.LoadFailed?
    ensures Dispatch(w, ReloadConfig, env) == Step(w, true, [])
  {
  }

  /** A successful load installs the new list, clamps the index, keeps the
      application id, and republishes when a client is held. */
  lemma ReloadInstallsNewList(w: World, env: Env)
    requires Valid(w)
    requires env.load.Loaded?
    ensures var s := Dispatch(w, ReloadConfig, env).world.session;
      && s.activities == env.load.config.activities
      && s.appId == w.session.appId
      && s.index == (if w.session.index < |env.load.config.activities| then w.session.index else 0)
      && s.lastAttempt == w.session.lastAttempt
      && (env.publishOk && w.session.hasClient && env.load.config.activities != [] ==> IsAlive(s))
    ensures !w.session.hasClient || env.load.config.activities == [] ==>
      Dispatch(w, ReloadConfig, env).sent == []
    ensures w.session.hasClient && env.load.config.activities != [] ==>
      var s := Dispatch(w, ReloadConfig, env).world.session;
      Dispatch(w, ReloadConfig, env).sent == [Build(s.activities[s.index], env.now / 1000)]
  {
  }

  /** The dispatcher stops right after the first `Exit`: everything before it
      is processed, nothing after it, and the app is no longer running. */
  lemma {:induction false} RunStopsAtFirstExit(w: World, queue: seq<(Command, Env)>, i: nat)
    requires Valid(w)
    requires i < |queue| && queue[i].0 == Exit
    requires forall j :: 0 <= j < i ==> queue[j].0 != Exit
    ensures RunQueue(w, queue).processed == i + 1
    ensures RunQueue(w, queue) == RunQueue(w, queue[..i + 1])
    ensures !RunQueue(w, queue).world.flags.running
    decreases i
  {
    if i > 0 {
      var step := Dispatch(w, queue[0].0, queue[0].1);
      assert step.keepGoing;
      var rest := queue[1..];
      assert queue[..i + 1][1..] == rest[..i];
      assert forall j :: 0 <= j < i - 1 ==> rest[j].0 != Exit by {
        forall j | 0 <= j < i - 1 ensures rest[j].0 != Exit {
          assert rest[j] == queue[j + 1];
        }
      }
      RunStopsAtFirstExit(step.world, rest, i - 1);
    }
  }

  /** Without an `Exit` the whole queue is processed. */
  lemma {:induction false} RunWithoutExitTakesAll(w: World, queue: seq<(Command, Env)>)
    requires Valid(w)
    requires forall j :: 0 <= j < |queue| ==> queue[j].0 != Exit
    ensures RunQueue(w, queue).processed == |queue|
    decreases |queue|
  {
    if queue != [] {
      var step := Dispatch(w, queue[0].0, queue[0].1);
      var rest := queue[1..];
      assert forall j :: 0 <= j < |rest| ==> rest[j].0 != Exit by {
        forall j | 0 <= j < |rest| ensures rest[j].0 != Exit {
          assert rest[j] == queue[j + 1];
        }
      }
      RunWithoutExitTakesAll(step.world, rest);
    }
  }

  // ---------------------------------------------------------- rotation loop

  /** How one iteration of the rotation loop ends: the 10-second cooldown
      after a failed reconnect, or the dwell sleep of the snapshot duration. */
  datatype Sleep = Cooldown | Dwell(seconds: u64)

  const COOLDOWN_SECS: nat := 10

  /** The session after one iteration, how it ends, and the payloads handed
      to the client during it (the reconnect's restore, then the rotation's
      publish), in order. */
  datatype Tick = Tick(session: SessionState, sleep: Sleep, sent: seq<Presence>)

  /** What the outside world answers during one iteration: the time of the
      snapshot and reconnect, whether `connect` and its restoring publish
      succeed, the time after the dwell sleep, and whether that publish succeeds. */
  datatype TickEnv = TickEnv(now: nat, connectOk: bool, restoreOk: bool, wake: nat, publishOk: bool)

  /** One iteration of the rotation loop: snapshot `(duration, paused, alive)`;
      if not alive, reconnect or cool down; sleep the snapshot duration; then,
      unless the snapshot said paused, advance and publish if the session is
      alive at that point. */
  function RotationTick(s: SessionState, paused: bool, env: TickEnv): (r: Tick)
    requires Session.Valid(s)
    ensures Session.Valid(r.session)
    ensures r.session.activities == s.activities && r.session.appId == s.appId
  {
    var duration := Duration(s);
    var ready :=
      if IsAlive(s) then Reconnected(s, true, [])
      else TryReconnect(s, env.now, env.connectOk, env.restoreOk);
    if !ready.reconnected then Tick(ready.session, Cooldown, ready.sent)
    else if paused || !IsAlive(ready.session) then Tick(ready.session, Dwell(duration), ready.sent)
    else
      var p := Publish(Advance(ready.session), env.wake, env.publishOk);
      Tick(p.session, Dwell(duration), ready.sent + Payloads(p.sent))
  }

  /** Session down and no reconnect: cooldown, no advance. */
  lemma TickCoolsDownWithoutReconnect(s: SessionState, paused: bool, env: TickEnv)
    requires Session.Valid(s)
    requires !IsAlive(s) && (RateLimited(s, env.now) || !env.connectOk)
    ensures RotationTick(s, paused, env).sleep == Cooldown
    ensures RotationTick(s, paused, env).session.index == s.index
    ensures RotationTick(s, paused, env).sent == []
  {
  }

  /** A paused snapshot never advances, whatever happens to the connection,
      and sends nothing but a reconnect's restore. */
  lemma PausedTickKeepsIndex(s: SessionState, env: TickEnv)
    requires Session.Valid(s)
    ensures RotationTick(s, true, env).session.index == s.index
    ensures IsAlive(s) ==> RotationTick(s, true, env).sent == []
    ensures !IsAlive(s) ==>
      RotationTick(s, true, env).sent == TryReconnect(s, env.now, env.connectOk, env.restoreOk).sent
  {
  }

  /** An unpaused tick that finds the session alive after the reconnect step
      sleeps the current duration, advances exactly once and publishes the
      new current activity stamped at the wake-up time. */
  lemma UnpausedLiveTickAdvancesOnce(s: SessionState, env: TickEnv)
    requires Session.Valid(s) && IsAlive(s)
    ensures RotationTick(s, false, env).sleep == Dwell(Duration(s))
    ensures RotationTick(s, false, env).session.index == Advance(s).index
    ensures RotationTick(s, false, env).session == Publish(Advance(s), env.wake, env.publishOk).session
    ensures s.activities == [] ==> RotationTick(s, false, env).sent == []
    ensures s.activities != [] ==>
      RotationTick(s, false, env).sent == [Build(s.activities[Advance(s).index], env.wake / 1000)]
  {
  }

  /** After a successful reconnect whose restore publish succeeded, an
      unpaused tick advances exactly once too: the old current activity is
      restored at the reconnect time, the new one published at wake-up. */
  lemma ReconnectedTickAdvancesOnce(s: SessionState, env: TickEnv)
    requires Session.Valid(s) && !IsAlive(s)
    requires !RateLimited(s, env.now) && env.connectOk && env.restoreOk
    ensures RotationTick(s, false, env).sleep == Dwell(Duration(s))
    ensures RotationTick(s, false, env).session.index == Advance(s).index
    ensures s.activities != [] ==>
      RotationTick(s, false, env).sent ==
        [ Build(s.activities[s.index], env.now / 1000),
          Build(s.activities[Advance(s).index], env.wake / 1000) ]
  {
  }

  /** A reconnect whose restore publish fails leaves the session down again:
      the tick still dwells, but does not advance, and only the restore was
      sent. */
  lemma ReconnectedTickRestoreFailed(s: SessionState, paused: bool, env: TickEnv)
    requires Session.Valid(s) && !IsAlive(s) && s.activities != []
    requires !RateLimited(s, env.now) && env.connectOk && !env.restoreOk
    ensures RotationTick(s, paused, env).sleep == Dwell(Duration(s))
    ensures RotationTick(s, paused, env).session.index == s.index
    ensures !IsAlive(RotationTick(s, paused, env).session)
    ensures RotationTick(s, paused, env).sent == [Build(s.activities[s.index], env.now / 1000)]
  {
  }

  /** `Pause` then a tick leaves the index; `Resume` then a tick on a live
      session advances it once. */
  lemma PauseThenTick(w: World, e: Env, t: TickEnv)
    requires Valid(w) && !w.flags.paused
    ensures var w1 := Dispatch(w, Pause, e).world;
      RotationTick(w1.session, w1.flags.paused, t).session.index == w.session.index
  {
  }

  lemma ResumeThenTick(w: World, e: Env, t: TickEnv)
    requires Valid(w) && IsAlive(w.session)
    ensures var w1 := Dispatch(w, Resume, e).world;
      RotationTick(w1.session, w1.flags.paused, t).session.index == Advance(w.session).index
  {
  }

  /** Two activities of 2 and 3 seconds, connected and unpaused: the first tick
      dwells 2 s and moves to the second activity, the next dwells 3 s and
      comes back to the first. */
  lemma TwoActivityScenario(a: ActivityConfig, b: ActivityConfig, s: SessionState, t1: TickEnv, t2: TickEnv)
    requires a.durationSeconds == 2 && b.durationSeconds == 3
    requires s.activities == [a, b] && s.index == 0 && IsAlive(s)
    requires t1.publishOk && t2.publishOk
    ensures var r1 := RotationTick(s, false, t1);
      && r1.sleep == Dwell(2) && r1.session.index == 1 && r1.sent == [Build(b, t1.wake / 1000)]
      && var r2 := RotationTick(r1.session, false, t2);
      && r2.sleep == Dwell(3) && r2.session.index == 0 && r2.sent == [Build(a, t2.wake / 1000)]
  {
  }

  // ------------------------------------------------------ startup, shutdown

  /** How startup ends; `sent` is the first publish's payload, if any. */
  datatype Startup = Fatal(message: string) | NothingToRotate | Started(world: World, sent: seq<Presence>)

  /** `main` up to the spawning of the two tasks: a failed load is fatal; an
      empty activity list ends the program successfully without connecting;
      otherwise the manager is created, `connect` is tried once and, if it
      succeeds, the first activity is published. */
  function Start(load: LoadResult, now: nat, connectOk: bool, publishOk: bool): (r: Startup)
    ensures load.LoadFailed? <==> r.Fatal?
    ensures r.NothingToRotate? <==> load.Loaded? && load.config.activities == []
    ensures r.Started? ==> Valid(r.world) && r.world.flags == InitialFlags
    ensures r.Started? ==> r.world.session.activities == load.config.activities
    ensures r.Started? ==> r.world.session.index == 0 && r.world.session.lastAttempt == now
    ensures r.Started? ==> (IsAlive(r.world.session) <==> connectOk && publishOk)
    ensures r.Started? && connectOk ==> r.sent == [Build(load.config.activities[0], now / 1000)]
    ensures r.Started? && !connectOk ==> r.sent == []
  {
    match load
    case LoadFailed(message) => Fatal(message)
    case Loaded(config) =>
      if config.activities == [] then NothingToRotate
      else
        var s0 := Initial(config.appId, config.activities);
        var c := Session.Connect(s0, now, connectOk);
        if c.outcome.Ok? then
          var p := Publish(c.session, now, publishOk);
          Started(World(InitialFlags, p.session), Payloads(p.sent))
        else Started(World(InitialFlags, c.session), [])
  }

  /** The shutdown sequence: `clear_activity` (its error ignored), then
      `disconnect`. The list and index survive; the session is closed. */
  function ShutDown(s: SessionState): (r: SessionState)
    ensures !IsAlive(r) && !r.hasClient
    ensures r.activities == s.activities && r.index == s.index && r.appId == s.appId
  {
    Session.Disconnect(s)
  }

  // ------------------------------------------------------------ status report

  /** The heading the `ShowStatus` arm logs first. */
  const STATUS_HEADER: string := "📊 === Estado de la Aplicación ==="

  /** The lines the `ShowStatus` arm logs (the config-path line is left out). */
  function StatusReport(w: World): (r: seq<string>)
    requires Valid(w)
    ensures |r| == 5 && r[0] == STATUS_HEADER && r[1] == Status(w.session)
  {
    [ STATUS_HEADER,
      Status(w.session),
      "⏸️  Rotación: " + (if w.flags.paused then "Pausada" else "Activa"),
      "🔗 Conexión: " + (if IsAlive(w.session) then "✅ Conectado" else "❌ Desconectado"),
      "📱 App: " + (if w.flags.running then "🟢 Funcionando" else "🔴 Cerrando") ]
  }

  /** The report tells the pause, connection and running states apart. */
  lemma StatusReportReflectsState(w1: World, w2: World)
    requires Valid(w1) && Valid(w2)
    requires StatusReport(w1) == StatusReport(w2)
    ensures w1.flags == w2.flags
    ensures IsAlive(w1.session) == IsAlive(w2.session)
  {
    var r1, r2 := StatusReport(w1), StatusReport(w2);
    assert r1[2] == r2[2] && r1[3] == r2[3] && r1[4] == r2[4];
    var p := "⏸️  Rotación: ";
    var c := "🔗 Conexión: ";
    var a := "📱 App: ";
    assert r1[2][|p|] == r2[2][|p|];
    assert r1[3][|c|] == r2[3][|c|];
    assert r1[4][|a|] == r2[4][|a|];
  }
}
