/** `DiscordPresenceManager`: the object the rotation task and the command
    task share. Its methods update its fields in place; each is proved to
    leave exactly the state the matching function of module Session computes
    from the old one. The IPC client is not modelled: `hasClient` records
    whether one is held, and each call into it is a boolean argument saying
    whether it succeeded. */
module Manager {
  import opened Types
  import opened Payload
  import opened Session

  class PresenceManager {
    var appId: string
    var activities: seq<ActivityConfig>
    var index: nat
    var connected: bool
    var hasClient: bool
    /** Milliseconds since the epoch of the last call of `Connect`. */
    var lastAttempt: nat

    /** The fields as one value. */
    function Model(): SessionState
      reads this
    {
      SessionState(appId, activities, index, connected, hasClient, lastAttempt)
    }

    ghost predicate Valid()
      reads this
    {
      Session.Valid(Model())
    }

    /** `new`: not connected, no client, first activity, epoch as last attempt. */
    constructor (appId: string, activities: seq<ActivityConfig>)
      ensures Valid()
      ensures Model() == Initial(appId, activities)
    {
      this.appId := appId;
      this.activities := activities;
      index := 0;
      connected := false;
      hasClient := false;
      lastAttempt := 0;
    }

    /** `connect` at time `now`; `clientOk` says whether creating and
        connecting the IPC client succeeded. */
    method Connect(now: nat, clientOk: bool) returns (res: Outcome)
      requires Valid()
      modifies this
      ensures Valid()
      ensures Connected(Model(), res) == Session.Connect(old(Model()), now, clientOk)
    {
      lastAttempt := now;
      if !clientOk {
        return Err(ConnectFailed);
      }
      hasClient := true;
      connected := true;
      return Ok;
    }

    /** `set_current_activity` at time `now`; `transportOk` says whether the
        client's `set_activity` succeeded. `sent` is the payload handed over. */
    method SetCurrentActivity(now: nat, transportOk: bool) returns (res: Outcome, sent: Option<Presence>)
      requires Valid()
      modifies this
      ensures Valid()
      ensures Published(Model(), res, sent) == Publish(old(Model()), now, transportOk)
    {
      if hasClient {
        if activities == [] {
          return Ok, None;
        }
        var current := activities[index];
        var timestamp := now / 1000;
        var activity := Build(current, timestamp);
        sent := Some(activity);
        if transportOk {
          connected := true;
        } else {
          connected := false;
          hasClient := false;
          return Err(PublishFailed), sent;
        }
        return Ok, sent;
      }
      return Ok, None;
    }

    /** `try_reconnect` at time `now`; `sent` is what the restoring publish
        handed to the client. */
    method TryReconnect(now: nat, clientOk: bool, restoreOk: bool) returns (reconnected: bool, sent: seq<Presence>)
      requires Valid()
      modifies this
      ensures Valid()
      ensures Reconnected(Model(), reconnected, sent) == Session.TryReconnect(old(Model()), now, clientOk, restoreOk)
    {
      if RateLimited(Model(), now) {
        return false, [];
      }
      var c := Connect(now, clientOk);
      if c.Ok? {
        var _, restored := SetCurrentActivity(now, restoreOk);
        return true, Payloads(restored);
      }
      return false, [];
    }

    /** `next_activity`. */
    method NextActivity()
      requires Valid()
      modifies this
      ensures Valid()
      ensures Model() == Advance(old(Model()))
    {
      if activities != [] {
        index := (index + 1) % |activities|;
      }
    }

    /** `reload_activities`: only the list and the index change. */
    method ReloadActivities(newActivities: seq<ActivityConfig>)
      modifies this
      ensures Valid()
      ensures Model() == Reload(old(Model()), newActivities)
    {
      activities := newActivities;
      if index >= |activities| {
        index := 0;
      }
    }

    /** `clear_activity`: changes no field, whatever the client answers. */
    method ClearActivity(clientOk: bool) returns (res: Outcome)
      ensures res == Clear(Model(), clientOk)
      ensures res.Err? ==> hasClient
    {
      if hasClient {
        if !clientOk {
          return Err(ClearFailed);
        }
      }
      return Ok;
    }

    /** `disconnect`: the client is closed (its answer ignored) and dropped. */
    method Disconnect()
      modifies this
      ensures Model() == Session.Disconnect(old(Model()))
      ensures old(Valid()) ==> Valid()
    {
      connected := false;
      hasClient := false;
    }
  }
}
