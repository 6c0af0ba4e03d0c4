/** The shared `AppState` and the code of `main` that drives the manager:
    the dispatcher task's loop, one iteration of the rotation task, the
    startup and the shutdown sequence. Each method changes the two shared
    objects in place and is proved to leave the world the matching function
    of module Control computes. */
module App {
  import opened Types
  import opened Session
  import opened Manager
  import Payload
  import Control

  /** `AppState`, shared behind its own lock. */
  class AppState {
    var isPaused: bool
    var isRunning: bool

    function Flags(): Control.Flags
      reads this
    {
      Control.Flags(isPaused, isRunning)
    }

    constructor ()
      ensures Flags() == Control.InitialFlags
    {
      isPaused := false;
      isRunning := true;
    }
  }

  /** The world made of the two shared objects. */
  function WorldOf(app: AppState, mgr: PresenceManager): Control.World
    reads app, mgr
  {
    Control.World(app.Flags(), mgr.Model())
  }

  /** One arm of the dispatcher `match`; `keepGoing` is false after `Exit`,
      and `sent` lists the payloads handed to the client. */
  method Dispatch(cmd: Control.Command, app: AppState, mgr: PresenceManager, env: Control.Env)
    returns (keepGoing: bool, sent: seq<Payload.Presence>)
    requires mgr.Valid()
    modifies app, mgr
    ensures mgr.Valid()
    ensures Control.Step(WorldOf(app, mgr), keepGoing, sent) == Control.Dispatch(old(WorldOf(app, mgr)), cmd, env)
  {
    keepGoing := true;
    sent := [];
    match cmd {
      case Pause =>
        app.isPaused := !app.isPaused;
      case Resume =>
        app.isPaused := false;
      case NextActivity =>
        if !IsAlive(mgr.Model()) {
          var reconnected, restored := mgr.TryReconnect(env.now, env.connectOk, env.restoreOk);
          sent := restored;
          if !reconnected {
            return;
          }
        }
        mgr.NextActivity();
        var _, published := mgr.SetCurrentActivity(env.now, env.publishOk);
        sent := sent + Payloads(published);
      case ReloadConfig =>
        match env.load {
          case Loaded(config) =>
            mgr.ReloadActivities(config.activities);
            var _, published := mgr.SetCurrentActivity(env.now, env.publishOk);
            sent := Payloads(published);
          case LoadFailed(_) =>
        }
      case ShowStatus =>
      case ToggleConsole =>
      case OpenConfig =>
      case Exit =>
        app.isRunning := false;
        keepGoing := false;
    }
  }

  /** The dispatcher task: takes commands in arrival order until the first
      `Exit`; `processed` is how many it took, `sent` every payload handed to
      the client, in order. */
  method RunDispatcher(queue: seq<(Control.Command, Control.Env)>, app: AppState, mgr: PresenceManager)
    returns (processed: nat, sent: seq<Payload.Presence>)
    requires mgr.Valid()
    modifies app, mgr
    ensures mgr.Valid()
    ensures Control.RunQueue(old(WorldOf(app, mgr)), queue) == Control.Run(WorldOf(app, mgr), processed, sent)
  {
    ghost var start := WorldOf(app, mgr);
    var i := 0;
    var going := true;
    sent := [];
    while going && i < |queue|
      invariant 0 <= i <= |queue|
      invariant mgr.Valid()
      invariant going ==>
        var rest := Control.RunQueue(WorldOf(app, mgr), queue[i..]);
        Control.RunQueue(start, queue) == Control.Run(rest.world, i + rest.processed, sent + rest.sent)
      invariant !going ==> Control.RunQueue(start, queue) == Control.Run(WorldOf(app, mgr), i, sent)
      decreases |queue| - i, going
    {
      var cmd := queue[i].0;
      var env := queue[i].1;
      assert queue[i..][1..] == queue[i + 1..];
      ghost var before := sent;
      var more;
      going, more := Dispatch(cmd, app, mgr, env);
      sent := sent + more;
      assert going ==> forall tail: seq<Payload.Presence> :: before + (more + tail) == sent + tail;
      i := i + 1;
    }
    if going {
      assert queue[i..] == [];
      assert sent + [] == sent;
    }
    processed := i;
  }

  /** One iteration of the rotation task. The snapshot of `is_paused` is read
      from `app` at the start; the task never writes `app`. `sent` lists the
      payloads handed to the client. */
  method RotationTick(app: AppState, mgr: PresenceManager, env: Control.TickEnv)
    returns (sleep: Control.Sleep, sent: seq<Payload.Presence>)
    requires mgr.Valid()
    modifies mgr
    ensures mgr.Valid()
    ensures Control.Tick(mgr.Model(), sleep, sent) == Control.RotationTick(old(mgr.Model()), app.isPaused, env)
  {
    var duration := Duration(mgr.Model());
    var isPaused := app.isPaused;
    var alive := IsAlive(mgr.Model());
    sent := [];
    if !alive {
      var reconnected, restored := mgr.TryReconnect(env.now, env.connectOk, env.restoreOk);
      sent := restored;
      if !reconnected {
        return Control.Cooldown, sent;
      }
    }
    if !isPaused {
      if IsAlive(mgr.Model()) {
        mgr.NextActivity();
        var _, published := mgr.SetCurrentActivity(env.wake, env.publishOk);
        sent := sent + Payloads(published);
      }
    }
    return Control.Dwell(duration), sent;
  }

  /** The shutdown sequence: clear the presence, ignore the answer, disconnect. */
  method ShutDown(mgr: PresenceManager, clearOk: bool)
    requires mgr.Valid()
    modifies mgr
    ensures mgr.Valid()
    ensures mgr.Model() == Control.ShutDown(old(mgr.Model()))
  {
    var _ := mgr.ClearActivity(clearOk);
    mgr.Disconnect();
  }

  /** `main` up to the spawning of the tasks. `mgr` and `app` are created only
      when there is something to rotate. */
  method Launch(load: LoadResult, now: nat, connectOk: bool, publishOk: bool)
    returns (outcome: Control.Startup, mgr: PresenceManager?, app: AppState?)
    ensures outcome == Control.Start(load, now, connectOk, publishOk)
    ensures outcome.Started? <==> mgr != null && app != null
    ensures outcome.Started? ==> fresh(mgr) && fresh(app) && mgr.Valid() && WorldOf(app, mgr) == outcome.world
  {
    match load
    case LoadFailed(message) =>
      return Control.Fatal(message), null, null;
    case Loaded(config) =>
      if config.activities == [] {
        return Control.NothingToRotate, null, null;
      }
      mgr := new PresenceManager(config.appId, config.activities);
      app := new AppState();
      var connected := mgr.Connect(now, connectOk);
      var sent := [];
      if connected.Ok? {
        var _, published := mgr.SetCurrentActivity(now, publishOk);
        sent := Payloads(published);
      }
      outcome := Control.Started(WorldOf(app, mgr), sent);
  }
}
