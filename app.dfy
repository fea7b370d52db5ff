/**
 * `LibreViewMonitorApp` of main.py: the window process as an object. Its fields are
 * the configuration, the client, the queues to and from the tray, and what the
 * widgets and the notifier were handed. Its methods run the polling tick, the
 * interruptible monitor loop and the command listener, and each is proved to do
 * what the functions of monitor.dfy describe.
 */
module App {
  import opened Wrappers
  import opened PyValue
  import opened Http
  import opened Protocol
  import opened Tray
  import opened Monitor
  import Client

  /** `checks` polls with `updates` ticks, one every 301 polls starting with the first. */
  lemma PollsPerTick(checks: nat, updates: nat)
    requires 301 * updates - 300 <= checks <= 301 * updates
    ensures updates == (checks + 300) / 301
  {
  }

  class MonitorApp {
    var config: Config
    /** Every payload passed to `dashboard.update_data`. */
    var shown: seq<GlucoseData>
    /** Every notification raised. */
    var alerts: seq<Notification>
    /** The configuration as written by every `config.save()`. */
    var saved: seq<Config>
    /** The callbacks the command listener has handed to `self.after`. */
    var scheduled: seq<Command>
    var view: View
    /** Whether the monitor thread has been started. */
    var monitoring: bool

    const api: Client.LibreViewApi
    const ch: Channels

    /** The state a polling tick works on. */
    ghost function World(): World
      reads this, api, api.net, ch
    {
      Monitor.World(config, api.State(), api.net.replies, api.net.sent, ch.glucose, shown, alerts, saved)
    }

    ghost predicate Valid()
      reads this, api
    {
      api.Valid()
    }

    /**
     * `__init__`: a client for the configured region, told the configured version,
     * then the initial view; the monitor starts with the dashboard.
     */
    constructor (config: Config, ch: Channels, net: Transport, sha256: string -> string, show: Value -> string)
      ensures Valid() && fresh(api)
      ensures this.config == config && this.ch == ch && api.net == net && api.sha256 == sha256 && api.show == show
      ensures api.State() == NewSession(config.region, show).(minVersion := config.minVersion)
      ensures view == InitialView(config) && monitoring == (view == DashboardView)
      ensures shown == [] && alerts == [] && saved == [] && scheduled == []
    {
      this.config := config;
      this.ch := ch;
      var api := new Client.LibreViewApi(config.region, net, sha256, show);
      api.minVersion := config.minVersion;
      this.api := api;
      shown := [];
      alerts := [];
      saved := [];
      scheduled := [];
      new;
      ShowInitialView();
    }

    /** `_show_initial_view`. */
    method ShowInitialView()
      modifies this
      ensures view == InitialView(config) && monitoring == (view == DashboardView)
      ensures config == old(config) && shown == old(shown) && alerts == old(alerts)
      ensures saved == old(saved) && scheduled == old(scheduled)
    {
      var password := config.password;
      if config.email != "" && password.Some? && password.value != "" {
        view := DashboardView;
        monitoring := true;
      } else {
        view := LoginView;
        monitoring := false;
      }
    }

    /** `_check_alerts(val)`. */
    method CheckAlerts(val: Value)
      modifies this
      ensures alerts == old(alerts) + Alerts(val, config, api.show)
      ensures config == old(config) && shown == old(shown) && saved == old(saved)
      ensures scheduled == old(scheduled) && view == old(view) && monitoring == old(monitoring)
    {
      if !Truthy(val) {
        return;
      }
      match Number(val) {
        case None =>
        case Some(x) =>
          var message := Text(val, api.show) + " mg/dL";
          if x <= config.low {
            alerts := alerts + [Notification("CRITICAL LOW", message)];
          } else if x >= config.high {
            alerts := alerts + [Notification("HIGH ALERT", message)];
          }
      }
    }

    /** Lines 192-208 of `_update_data`: what is done with the data a fetch returned. */
    method Record(data: GlucoseData)
      modifies this, ch
      ensures World() == Monitor.Record(old(World()), data, api.show)
      ensures scheduled == old(scheduled) && view == old(view) && monitoring == old(monitoring)
      ensures ch.commands == old(ch.commands) && ch.shutdown == old(ch.shutdown)
    {
      var val := data.current.value;
      var colorIdx := data.current.color;
      shown := shown + [data];
      ch.glucose := ch.glucose + [Reading(val, colorIdx)];
      CheckAlerts(val);
      if !PyEq(api.minVersion, config.minVersion) {
        config := config.(minVersion := api.minVersion);
        saved := saved + [config];
      }
    }

    /** Lines 191-208 of `_update_data`, once the client holds a token. */
    method Fetch()
      modifies this, api, api.net, ch
      ensures World() == FetchStep(old(World()), api.show)
      ensures api.region == old(api.region) && api.baseUrl == old(api.baseUrl)
      ensures scheduled == old(scheduled) && view == old(view) && monitoring == old(monitoring)
      ensures ch.commands == old(ch.commands) && ch.shutdown == old(ch.shutdown)
    {
      ghost var before := World();
      var data := api.FetchGlucoseData();
      assert World() == Absorb(before, FetchGlucose(before.session, before.replies, api.show));
      if data.Some? {
        Record(data.value);
      }
    }

    /** `_update_data`: one polling tick. */
    method UpdateData()
      requires Valid()
      modifies this, api, api.net, ch
      ensures Valid()
      ensures World() == Update(old(World()), api.sha256, api.show)
      ensures scheduled == old(scheduled) && view == old(view) && monitoring == old(monitoring)
      ensures ch.commands == old(ch.commands) && ch.shutdown == old(ch.shutdown)
    {
      if config.email == "" {
        return;
      }
      var password := config.password;
      if !Truthy(api.token) {
        if password.None? || password.value == "" {
          return;
        }
        ghost var before := World();
        var ok := api.Login(config.email, password.value);
        assert World() == Absorb(before, Login(before.session, Credentials(config.email, password.value),
                                               before.replies, api.sha256, api.show));
        if !ok {
          return;
        }
      }
      Fetch();
    }

    /**
     * `_monitor_loop`: one tick, then up to 300 one-second waits, for as long as the
     * stop event is found clear. The event is found clear by the first `stopAt`
     * checks and set by every later one (once set it stays set).
     */
    method MonitorLoop(stopAt: nat) returns (updates: nat, sleeps: nat)
      requires Valid()
      modifies this, api, api.net, ch
      ensures Valid()
      ensures updates + sleeps == stopAt
      ensures updates == (stopAt + 300) / 301 && sleeps <= 300 * updates
      ensures World() == Steps(old(World()), updates, api.sha256, api.show)
      ensures scheduled == old(scheduled) && view == old(view) && monitoring == old(monitoring)
      ensures ch.commands == old(ch.commands) && ch.shutdown == old(ch.shutdown)
    {
      updates, sleeps := 0, 0;
      var checks := 0;
      while checks < stopAt
        invariant Valid()
        invariant updates + sleeps == checks <= stopAt
        invariant 301 * updates - 300 <= checks <= 301 * updates
        invariant checks < stopAt ==> checks == 301 * updates
        invariant World() == Steps(old(World()), updates, api.sha256, api.show)
        invariant scheduled == old(scheduled) && view == old(view) && monitoring == old(monitoring)
        invariant ch.commands == old(ch.commands) && ch.shutdown == old(ch.shutdown)
        decreases stopAt - checks
      {
        checks := checks + 1;
        UpdateData();
        updates := updates + 1;
        var slept;
        checks, slept := Pause(checks, stopAt);
        sleeps := sleeps + slept;
      }
      PollsPerTick(checks, updates);
    }

    /**
     * The inner `for _ in range(300)` of `_monitor_loop`: a one-second wait after
     * each check that finds the stop event clear, at most 300 of them.
     */
    static method Pause(checks: nat, stopAt: nat) returns (after: nat, slept: nat)
      requires checks <= stopAt
      ensures after == checks + slept <= stopAt && slept <= 300
      ensures slept == 300 || after == stopAt
    {
      after, slept := checks, 0;
      for k := 0 to 300
        invariant after == checks + k <= stopAt && slept == k
      {
        if after >= stopAt {
          break;
        }
        after := after + 1;
        slept := slept + 1;
      }
    }

    /**
     * `_command_listener`: while the stop event is found clear (by the first `stopAt`
     * checks), takes at most one command per pass and schedules its callback.
     */
    method CommandListener(stopAt: nat)
      modifies this, ch
      ensures var taken := if stopAt < |old(ch.commands)| then stopAt else |old(ch.commands)|;
        && ch.commands == old(ch.commands)[taken..]
        && scheduled == old(scheduled) + DispatchAll(old(ch.commands)[..taken])
      ensures ch.glucose == old(ch.glucose) && ch.shutdown == old(ch.shutdown)
      ensures config == old(config) && shown == old(shown) && alerts == old(alerts) && saved == old(saved)
      ensures view == old(view) && monitoring == old(monitoring)
    {
      ghost var queue := ch.commands;
      ghost var taken := 0;
      for pass := 0 to stopAt
        invariant taken == (if pass < |queue| then pass else |queue|)
        invariant ch.commands == queue[taken..]
        invariant scheduled == old(scheduled) + DispatchAll(queue[..taken])
        invariant ch.glucose == old(ch.glucose) && ch.shutdown == old(ch.shutdown)
        invariant config == old(config) && shown == old(shown) && alerts == old(alerts) && saved == old(saved)
        invariant view == old(view) && monitoring == old(monitoring)
      {
        if ch.commands != [] {
          var cmd := ch.commands[0];
          ch.commands := ch.commands[1..];
          assert queue[taken..][1..] == queue[taken + 1..];
          assert queue[..taken + 1][..taken] == queue[..taken];
          if cmd == "SHOW" {
            scheduled := scheduled + [ShowWindow];
          } else if cmd == "QUIT" {
            scheduled := scheduled + [CloseApp];
          }
          taken := taken + 1;
        }
      }
    }
  }
}
