# LibreView glucose monitor — a verified model of its core

The application polls the LibreView cloud service (LibreLinkUp) for a patient's
glucose readings. It shows them in a desktop window and in a system-tray icon, and it
raises a notification when a reading crosses a threshold. This project models the
three sequential pieces of logic behind that, and proves what they do:

- **The session client** (`LibreViewAPI`, api_client.py). This is a small
  authentication state machine over `region`, `base_url`, `token`,
  `account_id_hash`, `patient_id` and `min_version`.
  - `login` follows version upgrades (a 403 carrying `data.minimumVersion`) and
    region redirects by calling itself again.
  - On success it hashes the account id and asks `_fetch_connections` for the first
    connection's patient.
  - `fetch_glucose_data` refuses without a full session, follows upgrades, and
    reshapes the reply into `current` and `graph`.
  - The model has two layers:
    - `Protocol` gives each call as a function over the session fields and a finite
      script of replies (`Http.Transport`). One reply is consumed per request.
    - `Client.LibreViewApi` is a class whose fields are the client's fields. Its
      methods run each recursion as a loop and are proved equal to those functions.
  - `ProtocolLemmas` proves what the source promises about them.
- **The dashboard** (`DashboardView`, dashboard_view.py).
  - It covers the trend-arrow and colour lookups of `update_data`.
  - It covers the point pipeline of `_update_graph`: key fallbacks by Python
    truthiness, the ISO pre-cut, the ordered timestamp formats, dropping points that
    do not parse, and an order-preserving output.
  - `_update_graph` is a method with its loop and the inner format loop with
    `break`. It is proved equal to the function `Dashboard.Normalize`.
- **The window and tray processes** (main.py).
  - `Monitor` holds the alert rule, command dispatch and the initial view. It also
    holds one polling tick, `_update_data`, as a function of the whole observable
    state (`World`).
  - `App.MonitorApp` is the window object. Its methods (`_update_data`,
    `_monitor_loop`, `_command_listener`, `_check_alerts`, `_show_initial_view`)
    are proved to follow those functions.
  - `Tray.TrayIcon` is the tray process: the `update_loop` reducer that drains the
    glucose queue, and the menu callbacks.
  - The queues and the event shared by the two processes are the fields of
    `Tray.Channels`.

Python's dynamic values are modelled by `PyValue.Value`, which covers these parts of
Python's semantics:

- truthiness;
- `==` across int, float and bool;
- `dict.get`, which raises on a non-dict;
- `str()`.

`str()` of a non-string is an abstract `show` function. `hashlib.sha256` is an
abstract `sha256` function with no assumed properties.

Some behaviour of the program is easy to miss, and the model keeps it as written:

- A graph point that is not a dict makes `_update_graph` raise AttributeError at its
  first `.get` (dashboard_view.py:114), which aborts the whole graph.
  `Dashboard.RaisesOnlyOnNonDict` states exactly when this happens.
- A failed fetch does not clear the session. A login reply that stores a token but
  has no usable account id therefore leaves the monitor doing nothing on every
  later tick, because a truthy token means no new login. `Monitor.StuckWithoutSession`
  and `Monitor.TokenOnlyLoginSticks` state this.
- `login` reports its outcome as a boolean and `fetch_glucose_data` as a dict or
  None. Every exception inside them is caught.

## Model

| member | source | states |
|---|---|---|
| PyValue.Number | main.py:220-222 | A value has a numeric view exactly when it is a bool, an int or a float; Python compares these by value |
| PyValue.PyEqReflexive | main.py:206 | Python `==` holds between a value and itself, so an unchanged version never counts as changed |
| Http.Next | api_client.py:42 | The next request receives the head of the script; once the script is exhausted it gets a network error |
| Http.Transport.Send | api_client.py:42 | Sending records the request and consumes exactly one reply from the front of the script |
| Protocol.BuildApiUrl | api_client.py:19-22 | The global host `https://api.libreview.io` is chosen exactly when the region is falsy. A truthy region gives a longer host that starts with `https://api-` |
| Protocol.BuildApiUrlRoundTrip | api_client.py:19-22 | A non-empty region gives `https://api-<region>.libreview.io`, whose region reads back as that region; "" and None give `https://api.libreview.io` |
| Protocol.ClassifyLogin | api_client.py:44-65 | A login reply is an upgrade exactly when it is a 403 whose body holds `data.minimumVersion`, and the upgrade carries that version. A network error, or an error status or non-JSON body that is not an upgrade, fails. Every other reply, a non-error response with a JSON body, is classified by its body, and only such replies are |
| Protocol.LoginBody | api_client.py:52-68 | A body never asks for an upgrade. A body that is not a dict, or whose `data` is not a dict, fails. With `status == 0` and truthy `data.redirect` and `data.region` it redirects to that region, and only then. Otherwise a dict `authTicket` hands its `token` to the account-id check, and any other `authTicket` fails |
| Protocol.TokenOnlyOrAccepted | api_client.py:61-67 | Once the token is read, the login either stores only that token or is accepted with it. It is accepted exactly when the token is truthy and `user.id` is a non-empty string, and the account id to be hashed is that `user.id` |
| Protocol.FirstPatientId | api_client.py:93-103 | A connections reply yields a patient exactly when it is a non-error response whose `data` is a non-empty list starting with a dict. The patient is that dict's `patientId`, or None when it has none |
| Protocol.FetchConnections | api_client.py:83-107 | The lookup changes no session field but the patient id, and sends at most one request, reading at most one reply. A True result comes with a truthy token, a digest and a patient id that is not None. `ProtocolLemmas.FetchConnectionsSpec` gives the full outcome |
| Protocol.Login | api_client.py:37-81 | A login always sends, and its first request is the post of the credentials on the current host. It never reads more replies than the script holds. The lemmas `LoginSuccess`, `LoginKeepsHost`, `LoginSameCredentials`, `LoginVersionFromServer` and `LoginConsumesInOrder` state the rest |
| Protocol.Reshape | api_client.py:130-142 | Reshaping succeeds only on a dict whose `data` is a dict, and the graph is that `data`'s `graphData` ([] when absent). `ProtocolLemmas.ReshapeFields` gives the exact condition and every field |
| Protocol.ClassifyGraph | api_client.py:121-142 | A graph reply is an upgrade exactly when it is a 403 whose body holds `data.minimumVersion`, with that version. It yields data exactly when it is otherwise a non-error response whose body reshapes, and the data is that reshaping |
| Protocol.FetchGlucose | api_client.py:109-146 | Without a full session the fetch sends nothing, reads nothing and returns None. Data comes back only from a full session that sent a request. The lemmas `FetchTouchesOnlyVersion`, `FetchLastVersion` and `FetchResultFromReply` state the rest |
| Client.LibreViewApi.constructor | api_client.py:11-17 | A fresh client has its host built from the region, no token, digest or patient, and version "4.16.0" |
| Client.LibreViewApi.GetHeaders | api_client.py:24-32 | The fixed headers, whose "version" header is always the current `min_version` |
| Client.LibreViewApi.FetchConnections | api_client.py:83-107 | The method does exactly what the function `Protocol.FetchConnections` describes: its result, the new fields, the replies consumed and the requests sent |
| Client.LibreViewApi.PostLogin | api_client.py:38-42 | Posts the credentials to `<base_url>/llu/auth/login` with the current headers, consuming one reply |
| Client.LibreViewApi.Login | api_client.py:37-81 | The retry loop keeps the host built from the region. It ends with the result, fields, replies and requests of the recursive `Protocol.Login` |
| Client.LibreViewApi.FetchGlucoseData | api_client.py:109-146 | The retry loop ends exactly as the recursive `Protocol.FetchGlucose` does, and changes no field but the version |
| ProtocolLemmas.Login403 | api_client.py:44-51 | A 403 with `data.minimumVersion` is an upgrade to exactly that version, for a login and for a fetch. A 403 without it is a failure |
| ProtocolLemmas.LoginUpgradeStep | api_client.py:44-49 | An upgrade reply re-posts with the version the server named and changes nothing else |
| ProtocolLemmas.LoginRedirectStep | api_client.py:55-59 | A redirect re-posts on the host built from the new region. Token, digest and patient are untouched |
| ProtocolLemmas.LoginAcceptedStep | api_client.py:61-68 | A token with an account id stores the token and `sha256(id)`. The login's result is then exactly that of `_fetch_connections` |
| ProtocolLemmas.LoginStopStep | api_client.py:51-65 | Any other reply, or none, ends the login with False. A reply with a token but no usable id still stores the token |
| ProtocolLemmas.AfterPrepend | api_client.py:49 | A retry's requests follow those already sent |
| ProtocolLemmas.LoginSuccess | api_client.py:64-68 | A login that returns True leaves a truthy token, a digest and a patient id that is not None |
| ProtocolLemmas.LoginKeepsHost | api_client.py:55-59 | Across any number of redirects the host stays the one built from the current region |
| ProtocolLemmas.LoginSameCredentials | api_client.py:49 | Every retry posts the same credentials: a request is a post exactly when it carries them, and the first request is the login post |
| ProtocolLemmas.PrependPosts | api_client.py:38-42 | One more post of the credentials in front keeps that property |
| ProtocolLemmas.LastVersionPrepend | api_client.py:49 | The last request of a retried run is the retry's last request |
| ProtocolLemmas.FetchConnectionsVersion | api_client.py:87-93 | The connection lookup sends at most one request, which carries the session's version, and leaves the version as it was |
| ProtocolLemmas.FetchConnectionsSpec | api_client.py:83-107 | Without a truthy token and digest it sends nothing and returns False. Otherwise it sends one GET to `/llu/connections` with the bearer token, the digest and the version, and reads one reply. The patient id becomes the first connection's `patientId`, and the result is True exactly when that id is not None |
| ProtocolLemmas.LoginLastVersion | api_client.py:42-49 | A login always sends something. Its last request carries the version the client ends with, so the last version received is the one sent last |
| ProtocolLemmas.LoginFailureKeepsPatient | api_client.py:83-103 | A failed login keeps the old patient id, or leaves None when the first connection had none |
| ProtocolLemmas.LoginVersionFromServer | api_client.py:47 | The version is either unchanged or one that a 403 reply in the script named |
| ProtocolLemmas.FetchConnectionsConsumes | api_client.py:93 | The connection lookup reads at most one reply, from the front of the script |
| ProtocolLemmas.ConsumesAfterOne | api_client.py:42 | One request that read the first reply, followed by a run that reads in order, reads in order |
| ProtocolLemmas.LoginConsumesInOrder | api_client.py:37-81 | A login reads a prefix of the script, one reply per request. Only an exhausted script leaves a request unanswered |
| ProtocolLemmas.LoginSucceedsButFetchRefuses | api_client.py:102-111 | A connection whose `patientId` is "" makes login return True, yet every later fetch refuses without sending anything |
| ProtocolLemmas.EmptyPatientIdReplies | api_client.py:61-62 | Replies with those shapes exist: an accepted login body, and a connection list whose first `patientId` is "" |
| ProtocolLemmas.FetchRefusesWithoutSession | api_client.py:110-111 | Without a truthy patient id, token and digest, a fetch returns None, changes nothing and sends nothing |
| ProtocolLemmas.FetchUpgradeStep | api_client.py:121-125 | An upgrade reply to a fetch retries it with exactly the version the server named |
| ProtocolLemmas.FetchStopStep | api_client.py:127-146 | Any other reply, or none, ends the fetch with the reshaped data or None |
| ProtocolLemmas.FetchTouchesOnlyVersion | api_client.py:109-146 | A fetch changes no session field but the version, and reads the script in order, one reply per request |
| ProtocolLemmas.FetchLastVersion | api_client.py:114-125 | The last request of a fetch carries the version the client ends with |
| ProtocolLemmas.FetchResultFromReply | api_client.py:127-142 | Data returned by a fetch is the reshaping of the last reply read, a non-error response with a JSON body, in a full session |
| ProtocolLemmas.ReshapeFields | api_client.py:130-142 | Reshaping succeeds exactly when the nested levels are dicts. `current` then holds `Value`, `TrendArrow`, `Timestamp` and `MeasurementColor` (None when absent), and `graph` holds `graphData` ([] when absent) |
| PyStrings.RunAtFront | dashboard_view.py:120 | The longest prefix whose characters all satisfy the test |
| PyStrings.RunAtBack | dashboard_view.py:126 | The longest suffix whose characters all satisfy the test |
| PyStrings.Strip | dashboard_view.py:120 | `strip()` keeps the middle of the string and removes only whitespace, leaving none at either end |
| PyStrings.BeforeDot | dashboard_view.py:126 | `split('.')[0]` is the longest dot-free prefix |
| PyStrings.TrimZ | dashboard_view.py:126 | `rstrip('Z')` is a prefix that does not end in 'Z', and it drops only 'Z's |
| PyStrings.IsoCandidate | dashboard_view.py:126 | The ISO candidate contains no '.' and does not end in 'Z'. It is a prefix of the text before the first dot, and everything it drops from that text is a 'Z' |
| PyStrings.IsoCandidateKeepsClean | dashboard_view.py:126 | A string already free of dots and of a trailing 'Z' is its own candidate |
| PyStrings.IsoCandidateIdempotent | dashboard_view.py:126 | Cutting twice is cutting once |
| PyStrings.StripIdempotent | dashboard_view.py:120 | Stripping twice is stripping once |
| Dashboard.TrendArrow | dashboard_view.py:72-79 | Codes 1 to 5, by numeric value, map to ↓ ↘ → ↗ ↑. Every other hashable value, None included, maps to "". A list or dict raises |
| Dashboard.TrendCode | dashboard_view.py:72-78 | An arrow reads back as the code in 1..5 that shows it |
| Dashboard.TrendArrowRoundTrip | dashboard_view.py:72-79 | Every code 1..5 comes back from its arrow, so no two codes share an arrow |
| Dashboard.ReadingColor | dashboard_view.py:82-84 | Index 2 gives yellow, 3 gives red, and anything else gives green, each as an if-and-only-if |
| Dashboard.Or | dashboard_view.py:114-116 | Python `or`: the first truthy operand, or the last operand when none is truthy |
| Dashboard.FirstFormat | dashboard_view.py:133-143 | The first format, in order, that parses the text. It is None exactly when none does |
| Dashboard.ParseTimestamp | dashboard_view.py:120-146 | A timestamp parses exactly when the ISO parser accepts the cut string or some format accepts the stripped string. When the ISO parser accepts, its result wins; otherwise the result is that of the first format, in order, that parses |
| Dashboard.NormalizePoint | dashboard_view.py:112-155 | One point raises exactly when it is not a dict. A dict point is kept exactly when its timestamp is truthy, its value is not None, the timestamp parses and `float()` accepts the value; it is kept with that parsed time and that float. Every other dict point is skipped |
| Dashboard.NormalizeList | dashboard_view.py:110-155 | The plotted series have equal lengths, no longer than the input |
| Dashboard.Normalize | dashboard_view.py:102-155 | A falsy payload plots nothing. Otherwise the graph is plotted exactly when the payload is a list of dicts, with equal-length series no longer than the list; anything else raises |
| Dashboard.NormalizeStep | dashboard_view.py:112-155 | One more turn of the loop: a raise ends it, a dropped point changes nothing, and a kept point is appended to both lists |
| Dashboard.OnePoint | dashboard_view.py:112-155 | A single point is kept, dropped or raises |
| Dashboard.NormalizeSnoc | dashboard_view.py:112 | The outcome of a list with one more point is one more turn after the outcome of the list |
| Dashboard.ThenExtend | dashboard_view.py:154-155 | Appending after two outcomes is appending after the second |
| Dashboard.NormalizeConcat | dashboard_view.py:110-155 | The outcome of `a + b` is that of `a` followed by that of `b`, so points are kept in order, never reordered or merged |
| Dashboard.RaisedPrefix | dashboard_view.py:112-114 | Once a point raises, the whole call raises |
| Dashboard.RaisesOnlyOnNonDict | dashboard_view.py:110-155 | The graph is plotted exactly when every point is a dict; nothing else escapes |
| Dashboard.ZeroReadingDropped | dashboard_view.py:116-118 | A 0 in `ValueInMgPerDl`, with no other value key, falls through to None and the point is dropped |
| Dashboard.ZeroReadingOverridden | dashboard_view.py:116 | The same 0 is overridden by a truthy lower-priority key |
| Dashboard.ReadPoint | dashboard_view.py:114-155 | The loop body with the inner format loop and its `break` computes the point `NormalizePoint` describes |
| Dashboard.UpdateGraph | dashboard_view.py:102-173 | `_update_graph` with its loops yields the outcome `Normalize` describes: nothing for a falsy payload, otherwise the kept points in order, or the exception |
| Dashboard.Refresh | dashboard_view.py:62-99 | Falsy data changes nothing, and data with an unhashable trend aborts. Any other data is always shown: `str(value)` in the reading colour and the trend arrow, then the graph `_update_graph` draws |
| Tray.Render | main.py:64-72 | A tuple shows `str(val)` in the reading colour; any other item shows `str(item)` on #2b2b2b, and only such items are grey |
| Tray.Title | main.py:74 | The tooltip holds the current value between a fixed 11-character prefix and a 6-character suffix, so the value reads back from it |
| Tray.Renders | main.py:62-75 | One icon per item, in queue order |
| Tray.RendersAppend | main.py:62-75 | Drawing two batches draws their concatenation |
| Tray.PulledSnoc | main.py:61-62 | One more pass takes its batch after everything taken before |
| Tray.DrawMore | main.py:62-75 | Drawing a further batch extends the drawing, and the last item drawn is the batch's last |
| Tray.Channels.constructor | main.py:238-240 | Both queues start empty and the event clear |
| Tray.TrayIcon.constructor | main.py:37-84 | The state starts as "--" on green, but the first image is "--" on grey, titled "LibreView" |
| Tray.TrayIcon.Take | main.py:63-75 | The oldest item is dequeued and becomes the current value and colour, the title and the newest image |
| Tray.TrayIcon.Drain | main.py:62-75 | Every queued item is drawn in FIFO order and the queue is left empty. Afterwards the icon shows the last item (latest wins), or is unchanged when nothing was queued |
| Tray.TrayIcon.Pass | main.py:61-76 | One pass drains what was queued plus what arrived, drawing each item in order. The icon and its title then show the last item; with nothing queued, value, colour and title are unchanged |
| Tray.TrayIcon.UpdateLoop | main.py:58-76 | The icon becomes visible. Every item ever queued is drawn once, in order, and the icon and its title end on the last one. With no pass or nothing queued, value, colour and title are unchanged |
| Tray.TrayIcon.OnShow | main.py:50-51 | "Show Monitor" enqueues "SHOW" |
| Tray.TrayIcon.OnQuit | main.py:53-56 | "Quit" stops the icon, enqueues "QUIT" and sets the shutdown event. The glucose queue, value, colour, drawing, title and visibility are unchanged |
| Tray.TrayIcon.RunEnded | main.py:87-90 | After the icon stops, "QUIT" is enqueued once more |
| Monitor.Alert | main.py:217-225 | A falsy or non-numeric value raises nothing. "CRITICAL LOW" is raised exactly when value ≤ low. "HIGH ALERT" is raised exactly when low < value and value ≥ high, so the low check wins. The message is `<value> mg/dL` |
| Monitor.AlertBands | main.py:220-223 | With low < high, a numeric reading raises nothing exactly when it lies strictly between the thresholds |
| Monitor.SilentReadings | main.py:218-219 | 0 and 0.0 are falsy and raise nothing even below a positive low; a string reading raises nothing |
| Monitor.Alerts | main.py:217-225 | A reading raises at most one notification. It raises one exactly when `Alert` gives one, and that notification is the one raised |
| Monitor.Dispatch | main.py:121-126 | "SHOW" schedules `show_window` and "QUIT" schedules `_on_closing`, each as an if-and-only-if; anything else is ignored |
| Monitor.DispatchName | main.py:121-126 | Every command the tray posts is recognised as the callback it stands for |
| Monitor.DispatchAll | main.py:119-128 | A run of commands schedules no more callbacks than it has commands |
| Monitor.DispatchOne | main.py:121-126 | One command schedules its own callback when it is "SHOW" or "QUIT", and nothing otherwise; with `DispatchAllAppend` this fixes every run |
| Monitor.DispatchAllAppend | main.py:119-128 | Scheduling is per command and in order |
| Monitor.DispatchNames | main.py:119-128 | The tray's own commands are scheduled one for one, none dropped or reordered |
| Monitor.InitialView | main.py:139-145 | The dashboard, and with it the monitor, opens exactly when both an email and a password are present |
| Monitor.Record | main.py:192-208 | Recorded data reaches the dashboard once, and its reading and colour reach the tray with the alerts it raises. The configuration is saved with the client's version exactly when that version differs from the configured one; otherwise nothing is saved. The session and the network are untouched |
| Monitor.FetchStep | main.py:191-208 | The fetch half of a tick changes the configuration at most in its version, only adds requests, and never reads more replies than the script holds. `FetchStepShape` states what reaches the tray, dashboard and disk |
| Monitor.Update | main.py:183-208 | A tick changes the configuration at most in its version, only adds requests, and never reads more replies than the script holds. `UpdateShape` and `UpdateEarlyExits` state the rest |
| Monitor.FetchStepShape | main.py:191-208 | Data a fetch returns is handed to the dashboard, and its `(value, color)` is pushed to the tray with the alert it raises. No data reaches nobody. The version is saved exactly when data came and the client's version differs from the configuration's, and an equal version is never saved. The session, the script and the requests are those of the fetch |
| Monitor.UpdateShape | main.py:183-208 | For a whole tick: either nothing reached the tray, dashboard or notifier, or exactly one payload did, with its alert. The config is either untouched or saved with the new version. Requests are only added. Only a tick with an email, and with a token or a password, pushes anything |
| Monitor.UpdateEarlyExits | main.py:184-189 | Without an email a tick changes nothing; without a token and a password it changes nothing. A failed login ends the tick with no fetch: nothing is pushed or saved, and only the login's requests are sent |
| Monitor.UpdateFetches | main.py:187-191 | With an email and a token a tick is exactly the fetch half. Without a token but with a password, a login that succeeds is followed by the fetch half on the session it left |
| Monitor.StuckWithoutSession | main.py:187-191 | With a token but not a full session, any number of ticks change nothing: no login, no request |
| Monitor.StuckTick | main.py:187-191 | One tick with a token but no full session changes nothing |
| Monitor.TokenOnlyLoginSticks | main.py:187-189 | A login reply with a token but no usable account id stores the token and fails, and every later tick then does nothing |
| Monitor.ConfigOnlyVersion | main.py:206-208 | However many ticks run, the configuration changes at most in its version |
| Monitor.ReadingsPerTick | main.py:192-204 | Each tick pushes at most one reading, one per payload handed to the dashboard, and raises at most one alert. Earlier pushes are kept |
| App.PollsPerTick | main.py:211-215 | With one tick every 301 checks of the stop event, `checks` checks run exactly ⌈checks / 301⌉ ticks |
| App.MonitorApp.constructor | main.py:106-113 | The client is built for the configured region and told the configured version, then the initial view opens |
| App.MonitorApp.ShowInitialView | main.py:139-145 | The view and the monitor start as `InitialView` decides |
| App.MonitorApp.CheckAlerts | main.py:217-225 | Exactly the notifications `Alerts` prescribes are raised, and nothing else changes |
| App.MonitorApp.Record | main.py:192-208 | Data is handed to the dashboard, its reading pushed, alerts checked and the version saved only if it changed, as `Monitor.Record` states |
| App.MonitorApp.Fetch | main.py:191-208 | The fetch half of a tick does what `FetchStep` states |
| App.MonitorApp.UpdateData | main.py:183-208 | One tick does what `Update` states, and keeps the host built from the region |
| App.MonitorApp.MonitorLoop | main.py:210-215 | Given that the first `stopAt` checks find the event clear, the loop runs ⌈stopAt / 301⌉ ticks and at most 300 waits after each. The world ends as `Steps` of that many ticks |
| App.MonitorApp.Pause | main.py:213-215 | At most 300 one-second waits, stopping at the first check that finds the event set |
| App.MonitorApp.CommandListener | main.py:118-129 | One command is taken per pass while the event is clear. Their callbacks are scheduled in order and the rest of the queue is left. The configuration, view, monitor flag and everything handed to the widgets are unchanged |

## Left out

- Network I/O and JSON decoding are not modelled.
  - Every HTTP call consumes the next reply of a finite script.
  - A body that is not JSON is `None`, and a reply with no status is `NetworkError`.
  - Retries end because the script is finite.
- Python's recursion limit on nested retries is not modelled.
  - Each retry of `login` and `fetch_glucose_data` is a nested call
    (api_client.py:49, 59, 76, 125).
  - After roughly a thousand consecutive upgrade or redirect replies, CPython raises
    RecursionError. `except Exception` catches it, so login returns False and the
    fetch returns None.
  - `Protocol.Login` and `Protocol.FetchGlucose` instead go on consuming the script.
- `hashlib.sha256`, `str()` of non-strings, `datetime.fromisoformat`,
  `datetime.strptime` and `float()` are abstract parameters. No property of hashing,
  number formatting, calendars or floats is assumed.
- Floats are exact reals. NaN, infinities and rounding are not modelled.
- config.py is not part of this model: file storage, key handling and Fernet
  encryption are left out.
  - Its fields are a `Config` value with thresholds as reals.
  - `get_password()` is an optional string.
  - `save()` is recorded as a copy appended to `saved`.
- login_view.py is not part of this model. It is widgets plus a blank-field check.
- The widgets, matplotlib plotting, axis formatting, image drawing, the macOS Dock
  policy and plyer are left out. A notification is a recorded
  `Notification(title, message)`. The dashboard's effect is the payload recorded
  in `shown`.
- Threads, processes and `self.after` are left out. The window's threads are run one
  after the other.
  - Each stop check is an input: the first `stopAt` checks find the event clear.
  - `time.sleep` is a counted wait.
  - `os._exit` is not modelled.
- App.MonitorApp.CommandListener: commands put on the queue while the listener
  runs are not modelled; it sees the queue as it was when it started.
- Tray.TrayIcon.UpdateLoop: what the window process puts on the queue is given per
  pass as `arrivals`. Items put after the last pass are not drawn.
- `_handle_login`, `_handle_logout`, `_force_refresh`, `_on_closing`,
  `show_window` and `_on_hide_window` are left out. They are callbacks of the
  widgets and threads around the core. The commands "SHOW" and "QUIT" reach
  `show_window` and `_on_closing`; the model records them as the scheduled
  `ShowWindow` and `CloseApp` values.
- The print-only payload logging in `update_data` and the status-bar and
  timestamp labels are left out.
- `_update_graph`'s `tried` list is left out because nothing reads it.
- Header validation by requests is not modelled.
  - `min_version` can become a number or a bool, taken from a 403 body
    (api_client.py:47, 124) or from the configuration.
  - requests then raises InvalidHeader while preparing the request, before
    anything is sent. `except Exception` turns this into False or None.
  - `Protocol.Login`, `Protocol.FetchConnections` and `Protocol.FetchGlucose`
    instead send such a request and consume a reply; every header value is
    accepted as it is.
