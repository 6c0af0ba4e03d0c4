# Presence session and rotation engine, modelled in Dafny

Lorian Workspace is a background daemon that keeps a Discord Rich Presence
session open over the local IPC channel and cycles through a configured list
of activities, each shown for its own number of seconds. This project models
its core in `src/main.rs`: the `DiscordPresenceManager` state machine
(connection, rate-limited reconnection, publishing, rotation, reload, status,
clear, disconnect), the payload the publish step builds, the command
dispatcher that applies `AppCommand`s one at a time to `AppState` and the
manager, one iteration of the rotation task, the startup and shutdown
sequences of `main`, and the tray's menu-id-to-command mapping.

Layout, one module per file:

- `Types.dfy` — the config records (`ButtonConfig`, `ActivityConfig`, the `discord` object), `u64`, `Option`, and the result of loading the config file.
- `Payload.dfy` — the presence payload built from one activity.
- `Session.dfy` — the manager's fields as a value (`SessionState`) and every manager operation as a function of the old state and of the outcome of the external call it makes, with the lemmas about rotation, reload, reconnection and publishing.
- `Manager.dfy` — `PresenceManager`, a class with the manager's fields whose methods update them in place; each method is proved to leave the state the matching `Session` function computes.
- `Control.dfy` — the dispatcher, one rotation iteration, startup and shutdown as functions over the pair (`AppState` flags, session), with their lemmas.
- `App.dfy` — `AppState` as a class and the imperative code of `main`: the dispatcher loop, one rotation iteration, startup and shutdown, each proved against `Control`.
- `Tray.dfy` — the menu item ids and `handle_menu_command`.

External effects are arguments. The clock is a `nat` of milliseconds since the
Unix epoch. Each call into the IPC client (creating and connecting it,
`set_activity`, `clear_activity`) is a boolean saying whether it succeeded,
and `load_config` is a `LoadResult` value. Each lock-held region is one
atomic step. A queued command arrives paired with the environment it meets.

Behaviours of the code that are easy to mistake:

- An empty activity list at startup ends `main` with `Ok(())`, not with an error (`Control.Start` gives `NothingToRotate`).
- `duration_seconds` is a plain `u64`; 0 is accepted.
- `clear_activity` never changes the connection state, even when the client reports an error.
- The reconnect rate limit uses `elapsed()`. When the clock has gone back past the last attempt, `elapsed()` fails and the attempt goes ahead (`Session.RateLimited`).
- A reload takes only the new activity list; the application id in the reloaded file is ignored.

## Model

| member | source | states |
|---|---|---|
| Payload.BuildAssets | src/main.rs:159-178 | assets exist exactly when `large_image` is set; they carry the configured large image and text and small image; the small caption is kept only beside a small image; the result always obeys the nesting rule |
| Payload.ConvertButtons | src/main.rs:181-186 | the sent buttons have the configured count, and button i carries the label and url of configured button i |
| Payload.Build | src/main.rs:148-189 | the payload carries the activity's details and state, the given start stamp, the assets above, and buttons exactly when configured, in config order |
| Payload.RepublishDiffersOnlyInStart | src/main.rs:148-156 | two publishes of the same activity differ only in the start stamp |
| Session.Initial | src/main.rs:88-97 | a new manager holds the list, index 0, no client, not connected, the epoch as its last attempt stamp, and satisfies the index invariant |
| Session.IsAlive | src/main.rs:138-140 | alive means connected and holding a client |
| Session.Current | src/main.rs:144-148 | the current activity exists exactly when the list is non-empty, and is then `activities[index]` |
| Session.Duration | src/main.rs:214-219 | the current activity's `duration_seconds`, or 30 when the list is empty |
| Session.NextIndex | src/main.rs:221-225 | the next position stays in the list: one place on, or 0 after the last entry |
| Session.Advance | src/main.rs:221-225 | keeps the index invariant; on an empty list changes nothing; otherwise moves the index to `NextIndex`; changes no other field |
| Session.AdvanceN | src/main.rs:221-225 | any number of advances keeps the index invariant |
| Session.AdvanceNMovesIndex | src/main.rs:221-225 | k advances change only the index, by k index steps |
| Session.NextIndexNForward | src/main.rs:221-225 | short of the end of the list, m steps move m places forward |
| Session.NextIndexNCycle | src/main.rs:221-225 | n index steps in a list of n entries come back to the start |
| Session.AdvanceNForward | src/main.rs:221-225 | short of the end of the list, k advances move the index k places and change nothing else |
| Session.RotationIsCycle | src/main.rs:221-225 | `len` advances bring a non-empty rotation back to its starting state |
| Session.RotationIsPeriodic | src/main.rs:221-225 | `len + k` advances land where k advances do |
| Session.AdvanceNEmpty | src/main.rs:221-225 | on an empty list no number of advances changes anything |
| Session.Reload | src/main.rs:227-233 | the list is replaced wholesale; the index is kept when still below the new length and reset to 0 otherwise; no connection field or the app id changes; the invariant holds afterwards whatever it was before |
| Session.ReloadSameList | src/main.rs:227-233 | reloading the current list changes nothing |
| Session.RateLimited | src/main.rs:115-119 | a reconnect is held back when fewer than 5 whole seconds have elapsed since the last attempt, and not when the clock went backwards |
| Session.Connect | src/main.rs:99-111 | the attempt time is always stamped; on success a client is held and the session is alive; on failure client and flag are as before and the error is returned |
| Session.Publish | src/main.rs:142-212 | without a client or activities: no change, `Ok`, nothing sent; otherwise the payload of `activities[index]` stamped with the current second is sent; success marks connected, failure drops the client, clears the flag and returns the error; only the connection fields can change |
| Session.PublishFailureKillsSession | src/main.rs:191-209 | a publish fails exactly when a client is held, the list is non-empty and the transport fails, and then the session is not alive |
| Session.TryReconnect | src/main.rs:113-136 | rate-limited: returns false and changes nothing; otherwise stamps the attempt, returns true exactly when `connect` succeeds, keeps list and index, and after success is alive exactly when the restoring publish succeeded (or there is nothing to publish); the restore sends the current activity stamped at the reconnect time, and nothing is sent without a reconnect or on an empty list |
| Session.ReconnectAtMostOncePerInterval | src/main.rs:113-119 | after a real attempt at t1, any reconnect in [t1, t1+5 s) is held back and returns false without touching the state |
| Session.FirstReconnectNotHeldBack | src/main.rs:95 | a new manager's epoch stamp never holds back a reconnect made five or more seconds after the epoch |
| Session.RateLimitExpires | src/main.rs:115-119 | once 5 seconds have passed since the last attempt the next reconnect really tries |
| Session.Clear | src/main.rs:250-257 | fails exactly when a client is held and the client's clear fails; never changes state |
| Session.Disconnect | src/main.rs:259-266 | always ends with no client and not connected; list and index unchanged |
| Session.DisconnectIdempotent | src/main.rs:259-266 | disconnecting twice equals disconnecting once |
| Session.Decimal | src/main.rs:240-246 | the position numbers are written as non-empty strings of decimal digits |
| Session.DecimalRoundTrip | src/main.rs:240-246 | the digits written read back as the number |
| Session.StatusOf | src/main.rs:235-248 | nothing configured exactly when the list is empty; otherwise the current activity's name and details at 1-based position `index+1` of `len` |
| Session.Render | src/main.rs:235-248 | the "no activities" message, or a line starting with the "current activity" prefix |
| Session.RenderDistinguishesEmpty | src/main.rs:235-248 | the two kinds of status text never coincide |
| Session.Status | src/main.rs:235-248 | the "no activities" message exactly when the list is empty |
| Manager.PresenceManager.constructor | src/main.rs:88-97 | the fields equal `Session.Initial` |
| Manager.PresenceManager.Connect | src/main.rs:99-111 | new fields and result are those of `Session.Connect` |
| Manager.PresenceManager.SetCurrentActivity | src/main.rs:142-212 | new fields, result and sent payload are those of `Session.Publish` |
| Manager.PresenceManager.TryReconnect | src/main.rs:113-136 | new fields, result and restored payloads are those of `Session.TryReconnect`, via the method's own calls of `Connect` and `SetCurrentActivity` |
| Manager.PresenceManager.NextActivity | src/main.rs:221-225 | new fields are `Session.Advance` of the old ones; the invariant is kept |
| Manager.PresenceManager.ReloadActivities | src/main.rs:227-233 | new fields are `Session.Reload` of the old ones; the invariant holds afterwards |
| Manager.PresenceManager.ClearActivity | src/main.rs:250-257 | the result is `Session.Clear`; it fails only when a client is held; no field changes |
| Manager.PresenceManager.Disconnect | src/main.rs:259-266 | new fields are `Session.Disconnect` of the old ones |
| Control.NextCommand | src/main.rs:1124-1141 | the `NextActivity` arm keeps the index invariant; it returns the new session and the payloads sent |
| Control.ReloadCommand | src/main.rs:1142-1166 | the `ReloadConfig` arm keeps the index invariant; it returns the new session and the payloads sent |
| Control.Dispatch | src/main.rs:1108-1197 | every command keeps the invariant; the loop continues after every command except `Exit` |
| Control.RunQueue | src/main.rs:1106-1199 | the dispatcher takes at most the queued commands and keeps the invariant; the payloads sent are those of each command in turn |
| Control.PauseTwiceIsIdentity | src/main.rs:1110-1118 | `Pause` negates the pause flag; two `Pause`s restore the world |
| Control.ResumeIdempotent | src/main.rs:1119-1123 | `Resume` leaves the rotation unpaused; a second `Resume` changes nothing |
| Control.ExitStops | src/main.rs:1190-1195 | `Exit` clears `is_running`, leaves the session and ends the loop |
| Control.PassiveCommandsChangeNothing | src/main.rs:1167-1189 | `ShowStatus`, `ToggleConsole` and `OpenConfig` change no state |
| Control.NextActivitySkippedWhenReconnectFails | src/main.rs:1124-1133 | session down and reconnect held back or failing: list, index and flags unchanged, nothing sent |
| Control.NextActivityAdvancesOnce | src/main.rs:1124-1141 | session alive or reconnect succeeding: exactly one advance, list and flags unchanged; alive: the new current activity is sent; reconnected with a good restore: the old one, then the new one; empty list: nothing |
| Control.NextActivityAfterFailedRestore | src/main.rs:1124-1141 | after a reconnect whose restoring publish failed, the command still advances, leaves no client, and its own publish returns `Ok` and sends nothing, so only the failed restore's payload was sent |
| Control.FailedReloadChangesNothing | src/main.rs:1161-1164 | a failed config load leaves activities, index and everything else untouched |
| Control.ReloadInstallsNewList | src/main.rs:1146-1160 | a successful load installs the new list, clamps the index, keeps the app id and last attempt, and a successful republish leaves the session alive; with a client and a non-empty new list the new current activity is sent, otherwise nothing |
| Control.RunStopsAtFirstExit | src/main.rs:1190-1195 | the dispatcher processes exactly the commands up to and including the first `Exit`, the result equals running that prefix alone, and it ends not running |
| Control.RunWithoutExitTakesAll | src/main.rs:1106-1199 | without an `Exit` every queued command is processed |
| Control.RotationTick | src/main.rs:1066-1100 | one iteration keeps the invariant, the list and the app id; it returns the new session, the sleep and the payloads sent |
| Control.TickCoolsDownWithoutReconnect | src/main.rs:1073-1083 | session down and no reconnect: cooldown sleep, no advance, nothing sent |
| Control.PausedTickKeepsIndex | src/main.rs:1088-1099 | a paused snapshot never advances and sends nothing beyond a reconnect's restore |
| Control.UnpausedLiveTickAdvancesOnce | src/main.rs:1066-1100 | an unpaused tick on a live session dwells the current duration, advances exactly once and sends the new current activity stamped at the wake-up second (nothing on an empty list) |
| Control.ReconnectedTickAdvancesOnce | src/main.rs:1073-1099 | after a successful reconnect and restore, an unpaused tick advances exactly once; the old activity is sent at the reconnect second, then the new one at the wake-up second |
| Control.ReconnectedTickRestoreFailed | src/main.rs:1073-1099 | a reconnect whose restore fails leaves the session down: the tick dwells, does not advance, and only the restore's payload was sent |
| Control.PauseThenTick | src/main.rs:1088-1099 | `Pause` from running then one tick leaves the index |
| Control.ResumeThenTick | src/main.rs:1088-1099 | `Resume` then one tick on a live session advances once |
| Control.TwoActivityScenario | src/main.rs:1066-1100 | activities of 2 s and 3 s: index 1 after a 2 s dwell, back to 0 after a 3 s dwell; the first tick sends the second activity, the next the first |
| Control.Start | src/main.rs:982-1042 | load failure is fatal; an empty list ends without connecting; otherwise unpaused, running, index 0, attempt stamped, alive exactly when connect and the first publish succeed; the first activity is sent exactly when connect succeeds |
| Control.ShutDown | src/main.rs:1221-1224 | after shutdown no client is held and the session is not alive; list and index unchanged |
| Control.StatusReport | src/main.rs:1167-1174 | five lines: the heading, then `get_status`, then the pause, connection and running lines |
| Control.StatusReportReflectsState | src/main.rs:1170-1174 | equal reports mean equal pause and running flags and equal liveness |
| App.AppState.constructor | src/main.rs:1013-1016 | starts unpaused and running |
| App.Dispatch | src/main.rs:1108-1197 | new `AppState`, manager fields, continue flag and sent payloads are those of `Control.Dispatch` |
| App.RunDispatcher | src/main.rs:1106-1199 | the loop's final state, count of commands taken and sent payloads are those of `Control.RunQueue` |
| App.RotationTick | src/main.rs:1066-1100 | new manager fields, sleep and sent payloads are those of `Control.RotationTick` on the paused snapshot |
| App.ShutDown | src/main.rs:1221-1224 | new manager fields are those of `Control.ShutDown` |
| App.Launch | src/main.rs:982-1042 | the outcome is `Control.Start`; the objects exist exactly when started and hold its world |
| Tray.MenuId | src/main.rs:497-505 | every command's menu id lies in 1001..1008 |
| Tray.MenuCommand | src/main.rs:657-671 | ids outside 1001..1008 are dropped |
| Tray.MenuRoundTrip | src/main.rs:657-671 | the id of a command maps back to it, and only that id maps to it |

## Left out

- Concurrency: the tokio tasks, the `Mutex`es and the interleaving of rotation and dispatcher. Each lock-held region is one atomic step, and the rotation iteration is one step. The 10-second cooldown is slept while the manager lock is still held (src/main.rs:1075-1081); a sequential model cannot observe that.
- Sleeps: the dwell sleep, the 10 s cooldown, the 500 ms reload debounce and the 100 ms main-loop poll. They appear only as the `Sleep` a tick reports and as the times passed in.
- The IPC client library (`discord_rich_presence`): each call is a success flag. Its error texts become the `Failure` kinds. Creating the client and connecting it are one flag, because both failures have the same effect.
- Logging (`log_info`, `log_error`, `app.log`, stdout): it has no effect on state. The status lines are modelled as values, except the config-path line.
- `load_config`, the data directory, default-config creation and JSON parsing: they are file-system and serde plumbing, replaced by a `LoadResult` argument. `get_default_config` is constant sample data.
- The file watcher, the Win32 tray window, its window procedure and context menus, and the console and open-config helpers: these are foreign OS calls. Only `handle_menu_command`'s mapping is kept.
- `setup_app` has no failure path (it only logs and returns `Ok(())`) and is left out as logging; tray creation and watcher creation failures during startup are OS-level failures and are left out too. `Control.Start` covers the config load, the empty-list exit and the first connect and publish.
- The main loop's `WM_QUIT` exit and its polling of `is_running`: the loop only waits, and the shutdown sequence itself is modelled.
- A `recv()` error on the command channel: it would make the dispatcher spin without doing anything. The model's queue is finite and the loop stops at its end.
- Payload.Build: the start stamp is `as_secs` of the clock cast to `i64`; the model keeps it as an unbounded integer because the cast only wraps after year 292 billion.
- The clock before 1970: `set_current_activity` unwraps `duration_since(UNIX_EPOCH)` (src/main.rs:149-151) and panics when the system clock reads earlier than the epoch; the model's clock is a `nat` of milliseconds since the epoch and cannot express such a reading.
- Time resolution: the clock is modelled in milliseconds, not nanoseconds. The 5-second rule compares whole elapsed seconds, as `as_secs()` does.
- `build.rs`: it only compiles a Windows icon resource.
