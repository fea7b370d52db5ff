/**
 * The decisions of the window process of main.py (`LibreViewMonitorApp`): which
 * view opens at launch, which notification a reading raises, what a command from
 * the tray schedules, and one polling tick (`_update_data`) as a function of the
 * whole observable state. The class in app.dfy runs these steps on its fields and
 * is proved to agree with them.
 */
module Monitor {
  import opened Wrappers
  import opened PyValue
  import opened Http
  import opened Protocol
  import opened Tray
  import ProtocolLemmas
  import SeqFacts

  /** The alert thresholds a fresh configuration starts with. */
  const DefaultLow: real := 70.0
  const DefaultHigh: real := 180.0

  /**
   * The fields of the persisted configuration that the window process reads.
   * `password` is what `get_password()` returns: None when nothing is stored or
   * the stored text cannot be decrypted.
   */
  datatype Config = Config(
    email: string,
    region: Value,
    minVersion: Value,
    low: real,
    high: real,
    password: Option<string>)

  /** A configuration with nothing saved yet. */
  function DefaultConfig(): Config
  {
    Config("", Null, Str(DefaultApiVersion), DefaultLow, DefaultHigh, None)
  }

  /** Python truthiness of the password `get_password()` returned. */
  predicate HasPassword(password: Option<string>)
  {
    password.Some? && password.value != ""
  }

  /** A desktop notification, recorded instead of shown. */
  datatype Notification = Notification(title: string, message: string)

  /**
   * `_check_alerts(val)`. A falsy value raises nothing; a value that does not compare
   * with a number raises TypeError, which is swallowed; otherwise the low threshold
   * is tested first, then the high one.
   */
  function Alert(val: Value, low: real, high: real, show: Value -> string): (r: Option<Notification>)
    ensures r.Some? ==> Truthy(val) && Number(val).Some? && r.value.message == Text(val, show) + " mg/dL"
    ensures r.Some? && r.value.title == "CRITICAL LOW"
        <==> Truthy(val) && Number(val).Some? && Number(val).value <= low
    ensures r.Some? && r.value.title == "HIGH ALERT"
        <==> Truthy(val) && Number(val).Some? && low < Number(val).value && high <= Number(val).value
    ensures r.Some? ==> r.value.title in {"CRITICAL LOW", "HIGH ALERT"}
  {
    if !Truthy(val) then None
    else
      match Number(val)
      case None => None
      case Some(x) =>
        var message := Text(val, show) + " mg/dL";
        if x <= low then Some(Notification("CRITICAL LOW", message))
        else if x >= high then Some(Notification("HIGH ALERT", message))
        else None
  }

  /**
   * With thresholds in the usual order, a numeric truthy reading strictly between
   * them is the only kind that raises nothing.
   */
  lemma AlertBands(val: Value, low: real, high: real, show: Value -> string)
    requires low < high && Truthy(val) && Number(val).Some?
    ensures Alert(val, low, high, show).None? <==> low < Number(val).value < high
  {
  }

  /**
   * A reading of 0 is below any positive low threshold, yet it is falsy and so
   * raises no alert; neither does a string reading, however low.
   */
  lemma SilentReadings(low: real, high: real, show: Value -> string)
    requires 0.0 < low
    ensures Alert(Int(0), low, high, show).None?
    ensures Alert(Float(0.0), low, high, show).None?
    ensures Alert(Str("40"), low, high, show).None?
  {
  }

  /** The notifications `_check_alerts` raises for a reading under a configuration: none or one. */
  function Alerts(val: Value, config: Config, show: Value -> string): (r: seq<Notification>)
    ensures |r| <= 1
    ensures |r| == 1 <==> Alert(val, config.low, config.high, show).Some?
    ensures |r| == 1 ==> r[0] == Alert(val, config.low, config.high, show).value
  {
    match Alert(val, config.low, config.high, show)
    case None => []
    case Some(n) => [n]
  }

  /** The callbacks the command listener schedules on the window's event loop. */
  datatype Command = ShowWindow | CloseApp

  /** `_command_listener`: "SHOW" and "QUIT" are recognised, anything else is dropped. */
  function Dispatch(cmd: string): (r: Option<Command>)
    ensures r == Some(ShowWindow) <==> cmd == "SHOW"
    ensures r == Some(CloseApp) <==> cmd == "QUIT"
  {
    if cmd == "SHOW" then Some(ShowWindow)
    else if cmd == "QUIT" then Some(CloseApp)
    else None
  }

  /** The command the tray posts for each callback. */
  function Name(c: Command): string
  {
    match c
    case ShowWindow => "SHOW"
    case CloseApp => "QUIT"
  }

  /** Every callback the tray can ask for is recognised, and as itself. */
  lemma DispatchName(c: Command)
    ensures Dispatch(Name(c)) == Some(c)
  {
  }

  /** The callbacks scheduled for a run of commands, in order, unknown ones dropped. */
  function DispatchAll(cmds: seq<string>): (r: seq<Command>)
    ensures |r| <= |cmds|
  {
    if cmds == [] then []
    else
      var rest := DispatchAll(cmds[..|cmds| - 1]);
      match Dispatch(cmds[|cmds| - 1])
      case None => rest
      case Some(c) => rest + [c]
  }

  /** A single command schedules its callback when it is recognised, and nothing otherwise. */
  lemma DispatchOne(cmd: string)
    ensures DispatchAll([cmd]) == if Dispatch(cmd).Some? then [Dispatch(cmd).value] else []
    ensures cmd != "SHOW" && cmd != "QUIT" ==> DispatchAll([cmd]) == []
  {
    assert [cmd][..0] == [];
  }

  /** Scheduling is per command: two runs schedule what each schedules, in order. */
  lemma {:induction false} DispatchAllAppend(a: seq<string>, b: seq<string>)
    ensures DispatchAll(a + b) == DispatchAll(a) + DispatchAll(b)
    decreases |b|
  {
    if b == [] {
      assert a + b == a;
    } else {
      var n := |b| - 1;
      assert (a + b)[..|a + b| - 1] == a + b[..n];
      assert (a + b)[|a + b| - 1] == b[n];
      DispatchAllAppend(a, b[..n]);
      match Dispatch(b[n]) {
        case None =>
        case Some(c) =>
          SeqFacts.AppendAssoc(DispatchAll(a), DispatchAll(b[..n]), [c]);
      }
    }
  }

  /** The tray's own commands are scheduled one for one: nothing is dropped or reordered. */
  lemma {:induction false} DispatchNames(cs: seq<Command>)
    ensures DispatchAll(seq(|cs|, i requires 0 <= i < |cs| => Name(cs[i]))) == cs
    decreases |cs|
  {
    if cs != [] {
      var n := |cs| - 1;
      var names := seq(|cs|, i requires 0 <= i < |cs| => Name(cs[i]));
      assert names[..n] == seq(n, i requires 0 <= i < n => Name(cs[..n][i]));
      DispatchNames(cs[..n]);
      assert cs == cs[..n] + [cs[n]];
    }
  }

  /** The two views of the window. */
  datatype View = LoginView | DashboardView

  /** `_show_initial_view`: the dashboard, and with it the monitor, only with both an email and a password. */
  function InitialView(config: Config): (v: View)
    ensures v == DashboardView <==> config.email != "" && HasPassword(config.password)
  {
    if config.email != "" && HasPassword(config.password) then DashboardView else LoginView
  }

  /**
   * Everything a polling tick reads or changes: the configuration, the client's
   * session, the network, the glucose queue to the tray, the payloads handed to the
   * dashboard, the notifications raised and every configuration written to disk.
   */
  datatype World = World(
    config: Config,
    session: Session,
    replies: seq<Reply>,
    sent: seq<Request>,
    tray: seq<TrayItem>,
    shown: seq<GlucoseData>,
    alerts: seq<Notification>,
    saved: seq<Config>)

  /** A run of the client folded into the world. */
  function Absorb<T>(w: World, r: Run<T>): World
  {
    w.(session := r.session, replies := r.replies, sent := w.sent + r.sent)
  }

  /**
   * Lines 192-208 of `_update_data`, on data: hand it to the dashboard, push
   * `(value, color)` to the tray, check alerts, and save the version when the
   * client's differs from the configuration's.
   */
  function Record(w: World, d: GlucoseData, show: Value -> string): (r: World)
    ensures Pushed(w, r, show) && r.shown[|w.shown|] == d
    ensures PyEq(w.session.minVersion, w.config.minVersion) ==> VersionKept(w, r)
    ensures !PyEq(w.session.minVersion, w.config.minVersion) ==> VersionSaved(w, r)
    ensures r.session == w.session && r.replies == w.replies && r.sent == w.sent
  {
    assert (w.shown + [d])[..|w.shown|] == w.shown;
    var val := d.current.value;
    var w' := w.(tray := w.tray + [Reading(val, d.current.color)], shown := w.shown + [d],
                 alerts := w.alerts + Alerts(val, w.config, show));
    if PyEq(w.session.minVersion, w.config.minVersion) then w'
    else
      var config := w.config.(minVersion := w.session.minVersion);
      w'.(config := config, saved := w.saved + [config])
  }

  /** Lines 191-208 of `_update_data`: fetch, and record the data if any came. */
  function FetchStep(w: World, show: Value -> string): (r: World)
    ensures r.config == w.config.(minVersion := r.config.minVersion)
    ensures w.sent <= r.sent && |r.replies| <= |w.replies|
  {
    var r := FetchGlucose(w.session, w.replies, show);
    match r.result
    case None => Absorb(w, r)
    case Some(d) => Record(Absorb(w, r), d, show)
  }

  /** `_update_data`: nothing without an email; without a token, log in first or give up. */
  function Update(w: World, sha256: string -> string, show: Value -> string): (r: World)
    ensures r.config == w.config.(minVersion := r.config.minVersion)
    ensures w.sent <= r.sent && |r.replies| <= |w.replies|
  {
    if w.config.email == "" then w
    else if !Truthy(w.session.token) then
      if !HasPassword(w.config.password) then w
      else
        var r := Login(w.session, Credentials(w.config.email, w.config.password.value), w.replies, sha256, show);
        if !r.result then Absorb(w, r) else FetchStep(Absorb(w, r), show)
    else FetchStep(w, show)
  }

  /** `n` ticks of the monitor one after the other. */
  function Steps(w: World, n: nat, sha256: string -> string, show: Value -> string): World
  {
    if n == 0 then w else Update(Steps(w, n - 1, sha256, show), sha256, show)
  }

  /** Nothing reached the tray, the dashboard or the notifier. */
  predicate Quiet(w: World, r: World)
  {
    r.tray == w.tray && r.shown == w.shown && r.alerts == w.alerts
  }

  /**
   * Exactly one payload reached the dashboard, its reading and colour reached the
   * tray, and the alerts are those that reading raises.
   */
  predicate Pushed(w: World, r: World, show: Value -> string)
  {
    && |r.shown| == |w.shown| + 1 && r.shown[..|w.shown|] == w.shown
    && var current := r.shown[|w.shown|].current;
       && r.tray == w.tray + [Reading(current.value, current.color)]
       && r.alerts == w.alerts + Alerts(current.value, w.config, show)
  }

  /** The configuration is untouched and nothing was saved. */
  predicate VersionKept(w: World, r: World)
  {
    r.config == w.config && r.saved == w.saved
  }

  /** The configuration took the client's new version, and was saved once. */
  predicate VersionSaved(w: World, r: World)
  {
    && r.config == w.config.(minVersion := r.session.minVersion)
    && !PyEq(r.config.minVersion, w.config.minVersion)
    && r.saved == w.saved + [r.config]
  }

  /**
   * The fetch half of a tick. Data that came back is handed to the dashboard and its
   * reading pushed to the tray, with the alert it raises; no data reaches nobody.
   * The version is saved exactly when data came and the client's version differs
   * from the configuration's; a version left equal is never saved.
   */
  lemma FetchStepShape(w: World, show: Value -> string)
    ensures var f := FetchGlucose(w.session, w.replies, show);
      var r := FetchStep(w, show);
      && r.session == f.session && r.replies == f.replies && r.sent == w.sent + f.sent
      && (f.result.Some? ==> Pushed(w, r, show) && r.shown == w.shown + [f.result.value])
      && (f.result.None? ==> Quiet(w, r))
      && (f.result.Some? && !PyEq(f.session.minVersion, w.config.minVersion) ==> VersionSaved(w, r))
      && (f.result.None? || PyEq(f.session.minVersion, w.config.minVersion) ==> VersionKept(w, r))
      && (f.session.minVersion == w.config.minVersion ==> VersionKept(w, r))
  {
    var f := FetchGlucose(w.session, w.replies, show);
    if f.result.Some? {
      assert (w.shown + [f.result.value])[..|w.shown|] == w.shown;
    }
    PyEqReflexive(w.config.minVersion);
  }

  /**
   * The early returns of `_update_data`: without an email nothing happens; without
   * a token and without a password nothing happens; a login that fails ends the
   * tick with no fetch, so nothing reaches the tray, the dashboard or the disk.
   */
  lemma UpdateEarlyExits(w: World, sha256: string -> string, show: Value -> string)
    ensures w.config.email == "" ==> Update(w, sha256, show) == w
    ensures !Truthy(w.session.token) && !HasPassword(w.config.password) ==> Update(w, sha256, show) == w
    ensures w.config.email != "" && !Truthy(w.session.token) && HasPassword(w.config.password) ==>
      var l := Login(w.session, Credentials(w.config.email, w.config.password.value), w.replies, sha256, show);
      var r := Update(w, sha256, show);
      !l.result ==>
        && Quiet(w, r) && VersionKept(w, r)
        && r.session == l.session && r.replies == l.replies && r.sent == w.sent + l.sent
  {
  }

  /**
   * The main path of `_update_data`: with an email and a token the tick is the fetch
   * half; without a token but with a password, a login that succeeds is followed by
   * the fetch half on the session it left.
   */
  lemma UpdateFetches(w: World, sha256: string -> string, show: Value -> string)
    ensures w.config.email != "" && Truthy(w.session.token) ==> Update(w, sha256, show) == FetchStep(w, show)
    ensures w.config.email != "" && !Truthy(w.session.token) && HasPassword(w.config.password) ==>
      var l := Login(w.session, Credentials(w.config.email, w.config.password.value), w.replies, sha256, show);
      l.result ==> Update(w, sha256, show) == FetchStep(Absorb(w, l), show)
  {
  }

  /**
   * What one tick may change: the configuration only in its version, and then it is
   * saved; at most one reading goes to the tray, paired with the payload handed to
   * the dashboard, with the alert that reading raises. Only a tick with an email
   * and either a token or a password pushes anything.
   */
  lemma UpdateShape(w: World, sha256: string -> string, show: Value -> string)
    ensures var r := Update(w, sha256, show);
      && (Quiet(w, r) || Pushed(w, r, show))
      && (VersionKept(w, r) || VersionSaved(w, r))
      && w.sent <= r.sent
      && (!Quiet(w, r) ==> w.config.email != "" && (Truthy(w.session.token) || HasPassword(w.config.password)))
  {
    if w.config.email != "" {
      if !Truthy(w.session.token) {
        if HasPassword(w.config.password) {
          var r := Login(w.session, Credentials(w.config.email, w.config.password.value), w.replies, sha256, show);
          FetchStepShape(Absorb(w, r), show);
        }
      } else {
        FetchStepShape(w, show);
      }
    }
  }

  /**
   * A session holding a token but not all three identifiers is stuck: the tick never
   * logs in again because the token is truthy, and the fetch refuses without a request.
   */
  lemma {:induction false} StuckWithoutSession(w: World, n: nat, sha256: string -> string, show: Value -> string)
    requires Truthy(w.session.token) && !Ready(w.session)
    ensures Steps(w, n, sha256, show) == w
  {
    if n > 0 {
      StuckWithoutSession(w, n - 1, sha256, show);
      StuckTick(w, sha256, show);
    }
  }

  /** One tick of a stuck session: no login, a refused fetch, nothing changes. */
  lemma StuckTick(w: World, sha256: string -> string, show: Value -> string)
    requires Truthy(w.session.token) && !Ready(w.session)
    ensures Update(w, sha256, show) == w
  {
    ProtocolLemmas.FetchRefusesWithoutSession(w.session, w.replies, show);
    assert w.sent + [] == w.sent;
  }

  /**
   * How the monitor gets stuck: a login reply with a token but no usable account id
   * stores the token and reports failure, and from then on every tick does nothing.
   */
  lemma TokenOnlyLoginSticks(w: World, n: nat, t: Value, sha256: string -> string, show: Value -> string)
    requires w.config.email != "" && HasPassword(w.config.password)
    requires !Truthy(w.session.token) && !Truthy(w.session.patientId)
    requires w.replies != [] && ClassifyLogin(w.replies[0]) == TokenOnly(t) && Truthy(t)
    ensures Update(w, sha256, show).session.token == t
    ensures Steps(Update(w, sha256, show), n, sha256, show) == Update(w, sha256, show)
  {
    var cred := Credentials(w.config.email, w.config.password.value);
    ProtocolLemmas.LoginStopStep(w.session, cred, w.replies, sha256, show);
    StuckWithoutSession(Update(w, sha256, show), n, sha256, show);
  }

  /** However many ticks run, the configuration differs from the initial one at most in its version. */
  lemma {:induction false} ConfigOnlyVersion(w: World, n: nat, sha256: string -> string, show: Value -> string)
    ensures var r := Steps(w, n, sha256, show);
      r.config == w.config.(minVersion := r.config.minVersion)
  {
    if n > 0 {
      ConfigOnlyVersion(w, n - 1, sha256, show);
      UpdateShape(Steps(w, n - 1, sha256, show), sha256, show);
    }
  }

  /** Every tick pushes at most one reading, and exactly one per payload handed to the dashboard. */
  lemma {:induction false} ReadingsPerTick(w: World, n: nat, sha256: string -> string, show: Value -> string)
    ensures var r := Steps(w, n, sha256, show);
      && |r.tray| - |w.tray| == |r.shown| - |w.shown| <= n
      && w.tray <= r.tray && w.shown <= r.shown && |w.alerts| <= |r.alerts| <= |w.alerts| + n
  {
    if n > 0 {
      ReadingsPerTick(w, n - 1, sha256, show);
      UpdateShape(Steps(w, n - 1, sha256, show), sha256, show);
    }
  }
}
