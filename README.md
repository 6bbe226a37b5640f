# SpeakerKeep scheduling core, modelled in Dafny

SpeakerKeep is a browser extension that plays a short tone every few minutes
so that a connected speaker does not fall asleep. This project models its two
pieces of logic:

- the **controller** (background.js): the run flag, the configuration
  {frequency, duration, interval}, the time of the last ping, the heartbeat
  timer flag, and the host state it drives (the one alarm named "keepAlive"
  with its period in minutes, the key-value store with `sk_config`,
  `sk_running`, `sk_lastPing` and `last-heartbeat`, and a log of the tones sent
  to the renderer). Its handlers are START, STOP, GET_STATUS, UPDATE_CONFIG,
  PLAY_TEST, the alarm listener, the heartbeat body and `restoreState`.
- the **control panel** (popup.js): its own copy of the run flag and the
  configuration, and its estimate of the next ping, updated by the status
  reply, the STATUS_CHANGED and TONE_PLAYED notices, the toggle callbacks, the
  configuration controls and the countdown tick.

Each piece is written twice, as it works in the source:

- `controller_spec.dfy` and `panel_spec.dfy` give every handler as a function
  from the state before to the state after. Their contracts and lemmas carry
  the properties of the schedule.
- `background.dfy` and `popup.dfy` give the same handlers as methods of the
  classes `Controller` and `Panel`. The methods reassign the fields step by
  step, as the source does. Each method is proved to end in exactly the state
  the matching function gives.

Other files:

- `schedule.dfy`: the shared types.
- `countdown.dfy`: the minute/second split and the decimal text of the
  countdown.
- `system.dfy`: when the panel's estimate agrees with the next ping the
  controller reports (one interval after its last ping). This is not always
  when the alarm fires; see "## Left out".

Time is an integer number of milliseconds and is always passed in (`now`).
The notices the controller broadcasts are returned by each handler rather
than delivered. That way STOP twice leaves the same state as STOP once.

Five behaviours of the code that differ from what the handlers' names, the
nearby comments or the stored keys suggest. The model follows the code:

- `restoreState` plays a catch-up tone only when the alarm did not survive.
  If the alarm is still registered, no tone is played even when the ping is
  overdue (background.js:250-263).
- STOP resets `lastPingTime` in memory but leaves `sk_lastPing` in the store
  (background.js:144-153).
- PLAY_TEST overwrites the controller's configuration with the panel's
  (background.js:206), without persisting it. The next ping therefore keeps
  its value only when the interval is unchanged.
- START on a running controller still replaces and persists the
  configuration. Only the rest of `startKeepAlive` is skipped
  (background.js:167-169, 117).
- UPDATE_CONFIG moves the anchor in memory only. `sk_lastPing` keeps the time
  of the last real ping (background.js:199).

## Model

| member | source | states |
|---|---|---|
| ControllerSpec.Fresh | background.js:3-11 | a new process is stopped, with the default configuration and no ping or heartbeat, over the surviving host state, with no next ping |
| ControllerSpec.PlayTone | background.js:68-98 | one tone with the current frequency and duration is appended; the ping time is now, in memory and in the store; TONE_PLAYED(now) is sent; run flag, configuration and alarm unchanged |
| ControllerSpec.NextPingTime | background.js:108-113 | absent exactly when stopped; when running, exactly one interval (interval·60000 ms) after the last ping |
| ControllerSpec.StartKeepAlive | background.js:116-141 | when running: nothing changes and nothing is sent; otherwise running, heartbeat set, the whole store afterwards is the old one with sk_running true and sk_lastPing now (sk_config and last-heartbeat kept), stored configuration adopted, one tone, ping time now, alarm with that configuration's interval, TONE_PLAYED then STATUS_CHANGED with next ping now + interval |
| ControllerSpec.Start | background.js:166-170 | the given configuration is held and persisted in every case; heartbeat set from stopped, kept when running; from stopped: the store gets sk_config, sk_running true and sk_lastPing now and nothing else, exactly one tone of that configuration, ping time now, alarm period = its interval, broadcast next ping now + interval·60000; when running: only sk_config changes in the store, no tone, no notice, schedule untouched |
| ControllerSpec.Stop | background.js:144-153 | not running, sk_running false, alarm cleared, heartbeat cleared, ping time 0, no next ping, configuration and tone log unchanged, STATUS_CHANGED(false) sent |
| ControllerSpec.GetStatus | background.js:178-187 | reports the run flag, configuration and last ping; the next ping is absent exactly when stopped and else lastPing + interval·60000 |
| ControllerSpec.UpdateConfig | background.js:189-201 | configuration always replaced and persisted; when running the alarm period becomes the new interval and the anchor now, so the next ping is now + new interval; when stopped alarm and anchor untouched |
| ControllerSpec.UpdateResponseAsWritten | background.js:202 | the reply computed before the re-anchoring callback: old anchor + new interval when running, none when stopped |
| ControllerSpec.UpdateResponse | background.js:198-202 | corrected reply: now + new interval when running, none when stopped |
| ControllerSpec.StaleUpdateResponse | background.js:189-202 | concrete state where the as-written reply (300000) differs from the schedule UPDATE_CONFIG leaves (480000) |
| ControllerSpec.PlayTest | background.js:205-226 | exactly the 1000 Hz / 1000 ms tone is appended; configuration becomes the given one; run flag, anchor, alarm, heartbeat and store unchanged; next ping unchanged when the interval is |
| ControllerSpec.OnAlarm | background.js:229-233 | a tone (and TONE_PLAYED) exactly when the alarm is "keepAlive" and the controller runs, with the ping time now, sk_lastPing now and every other key, the heartbeat, the alarm and the configuration kept; otherwise nothing changes |
| ControllerSpec.Heartbeat | background.js:15-32 | runs only while the timer is set; the liveness time is stored; a running controller without an alarm gets one with its interval; an existing alarm is kept; nothing else changes |
| ControllerSpec.Restore | background.js:236-265 | without sk_running true nothing changes; with it: running, heartbeat set, stored (else current) configuration, stored (else 0) anchor, alarm kept or re-registered, and exactly one catch-up tone iff the alarm was lost and the restored next ping is 0 or before now |
| ControllerSpec.StartTwice | background.js:116-117 | a second START with the same configuration changes nothing and sends nothing |
| ControllerSpec.StopTwice | background.js:144-153 | STOP is idempotent on the state and plays no tone |
| ControllerSpec.StartThenStatus | background.js:166-187 | GET_STATUS after START from stopped returns the given configuration, running, last ping now, next ping now + interval·60000 |
| ControllerSpec.UpdateReanchors | background.js:192-200 | on a running controller the next ping after UPDATE_CONFIG does not depend on the old anchor |
| ControllerSpec.HandlersKeepConsistent | background.js:119-147 | every handler keeps "running iff sk_running is true" |
| ControllerSpec.HandlersKeepArmed | background.js:135-137 | no handler leaves a running controller without an alarm |
| ControllerSpec.RestoreAfterRestart | background.js:236-271 | restoreState on a new process always ends consistent and armed |
| Background.Controller.constructor | background.js:3-11 | the object starts in ControllerSpec.Fresh over the given host state |
| Background.Controller.StartHeartbeat | background.js:14-33 | sets the heartbeat flag and changes nothing else |
| Background.Controller.PlayTone | background.js:68-98 | new state and notices are those of ControllerSpec.PlayTone |
| Background.Controller.StartKeepAlive | background.js:116-141 | new state and notices are those of ControllerSpec.StartKeepAlive |
| Background.Controller.Start | background.js:166-171 | new state and notices are those of ControllerSpec.Start |
| Background.Controller.Stop | background.js:144-153 | new state and notices are those of ControllerSpec.Stop |
| Background.Controller.GetStatus | background.js:178-187 | changes nothing; the reply's next ping is absent iff stopped, else lastPingTime + interval·60000 |
| Background.Controller.UpdateConfig | background.js:189-203 | new state is ControllerSpec.UpdateConfig's; the reply is the corrected ControllerSpec.UpdateResponse |
| Background.Controller.PlayTest | background.js:205-226 | new state is ControllerSpec.PlayTest's |
| Background.Controller.OnAlarm | background.js:229-233 | new state and notices are those of ControllerSpec.OnAlarm |
| Background.Controller.Heartbeat | background.js:15-31 | callable only while the heartbeat timer is set; new state is ControllerSpec.Heartbeat's |
| Background.Controller.RestoreState | background.js:236-265 | new state and notices are those of ControllerSpec.Restore |
| Background.StartTwiceOnObject | background.js:166-169 | on the object, two STARTs with one configuration leave the state of the first, and the second sends nothing |
| Background.RestartCatchesUp | background.js:250-262 | a process restarted ten minutes after a ping with interval 4 and no alarm plays one catch-up tone with the stored configuration and re-registers a 4-minute alarm |
| Countdown.SplitRemaining | popup.js:318-319 | for remaining > 0: seconds in 0..59 and minutes·60000 + seconds·1000 ≤ remaining < minutes·60000 + (seconds+1)·1000 |
| Countdown.SplitUnique | popup.js:318-319 | those bounds have exactly one solution, so they define the split |
| Countdown.DecimalString | popup.js:322 | non-empty, decimal digits only, no leading zero, one digit exactly below 10 |
| Countdown.DecimalRoundTrip | popup.js:322 | the digits written denote the number |
| Countdown.PadTwo | popup.js:323 | pads with '0' on the left to length 2, keeping the string as its suffix |
| Countdown.TwoDigitSeconds | popup.js:323 | every seconds value 0..59 is shown as two digits, tens then units |
| Countdown.ClockText | popup.js:322-325 | the text starts with the minutes in decimal followed by "m ", ends in "s", and for seconds 0..59 is five characters longer than the minutes |
| Countdown.RemainingText | popup.js:318-325 | the text is the minutes in decimal, "m ", two digits of seconds, "s" |
| PanelSpec.LoadStatus | popup.js:89-121 | no reply: no change; else adopts run flag and configuration; branch order: a non-zero future reply next ping as is; else lastPing + interval if future, else now + 5000; else now + interval; stopped: estimate kept; the estimate is after now whenever the reply is future or the controller runs with a positive interval |
| PanelSpec.OnStatusChanged | popup.js:49-57 | run flag adopted; stopped clears the estimate; running adopts a non-zero next ping still ahead of now, moves one that is not to now + interval·60000 (the immediate first tick of startCountdown, popup.js:288-292), and otherwise keeps the estimate |
| PanelSpec.OnNotice | popup.js:48-65 | STATUS_CHANGED is exactly OnStatusChanged at the time of receipt and TONE_PLAYED exactly OnTonePlayed; the configuration is kept; STATUS_CHANGED sets the run flag and, for a stop, clears the estimate; TONE_PLAYED keeps the run flag and re-anchors a running panel at ping + interval·60000 for a non-zero ping time |
| PanelSpec.OnTonePlayed | popup.js:59-64 | a running panel given a non-zero ping time re-anchors at ping + interval·60000; otherwise nothing changes |
| PanelSpec.ToggleCommand | popup.js:212-227 | STOP exactly when the panel runs, else START with the panel's configuration |
| PanelSpec.ToggleStopped | popup.js:215-220 | stopped, no estimate, configuration kept |
| PanelSpec.ToggleStarted | popup.js:227-232 | running with the estimate now + interval·60000, after now for a positive interval |
| PanelSpec.OnUpdateReply | popup.js:160-165 | run flag and configuration kept; a non-zero reply is adopted when it is still ahead of now or the panel is stopped, and a running panel given a reply not ahead of now ends at now + interval·60000 (the immediate first tick of startCountdown, popup.js:288-292); a zero or absent reply changes nothing |
| PanelSpec.UpdateRequest | popup.js:155-159 | UPDATE_CONFIG, carrying the panel's configuration, is sent exactly when running |
| PanelSpec.CountdownTick | popup.js:304-327 | "Not running" and no change without a running non-zero estimate; overdue: "Pinging now..." and the estimate becomes now + interval; else unchanged state and a minute/second split within the bounds above; for a positive interval the estimate is after now afterwards |
| PanelSpec.LoadedCountdownSettled | popup.js:104-120 | the first tick of the countdown loadStatus starts leaves the panel as the reply left it |
| PanelSpec.StartedCountdownSettled | popup.js:228-231 | the first tick of the countdown the START callback starts leaves the panel as the callback left it |
| PanelSpec.DescribedPreset | popup.js:141 | the description shown is that of the frequency when it is a preset, else that of 20000 Hz |
| Popup.Panel.constructor | popup.js:3-11 | the object starts in PanelSpec.Initial |
| Popup.Panel.LoadStatus | popup.js:89-126 | new state is PanelSpec.LoadStatus's |
| Popup.Panel.OnMessage | popup.js:48-65 | new state is PanelSpec.OnNotice's for the message; it returns the text of the countdown's first tick exactly when a running STATUS_CHANGED with a non-zero next ping restarts the countdown |
| Popup.Panel.ToggleKeepAlive | popup.js:212-235 | sends PanelSpec.ToggleCommand's command and ends in the state of the matching callback |
| Popup.Panel.OnUpdateReply | popup.js:196-201 | new state is PanelSpec.OnUpdateReply's; it returns the text of the countdown's first tick exactly when the reply is non-zero |
| Popup.Panel.StartCountdown | popup.js:288-292 | new state and text are those of the one tick it runs at once |
| Popup.Panel.SelectFrequency | popup.js:147-167 | only the frequency changes; UPDATE_CONFIG with the new configuration exactly when running |
| Popup.Panel.SetDuration | popup.js:171-183 | only the duration changes; UPDATE_CONFIG with the new configuration exactly when running |
| Popup.Panel.SetInterval | popup.js:186-203 | only the interval changes; UPDATE_CONFIG with the new configuration exactly when running |
| Popup.Panel.UpdateCountdownDisplay | popup.js:304-327 | new state is PanelSpec.CountdownTick's and the text is that of its display |
| System.StartAgreement | popup.js:222-233 | after START the callback's estimate equals the controller's next ping, and START's two notices leave the panel unchanged |
| System.StartAgreementTimes | popup.js:48-65 | with the START callback at any time, the ping at t1 and the notices received within one interval after t1, the panel ends at the controller's next ping |
| System.OpenAfterStart | popup.js:104-106 | a panel opened within one interval of START holds exactly the controller's status and next ping |
| System.OpenWhenOverdue | popup.js:107-116 | a panel opened after a missed ping expects the next one 5 s from now |
| System.PingAgreement | popup.js:59-64 | after an alarm ping, TONE_PLAYED brings a running panel to the controller's next ping |
| System.StopAgreement | popup.js:49-54 | STOP's notice leaves the panel as the STOP callback does, with no next ping on either side |
| System.UpdateAgreement | popup.js:196-201 | adopting the corrected UPDATE_CONFIG reply gives the controller's next ping |
| System.StaleUpdateEstimate | popup.js:196-201 | adopting the reply as written leaves the panel three minutes short of the controller's next ping |
| System.PastStaleUpdateEstimate | popup.js:196-201 | a reply as written that is already past shows "Pinging now..." with no ping due, and the tick moves the estimate to the controller's real next ping |

## Findings

| source | as written | input that shows it | evidently intended | confidence | as-written member | corrected member |
|---|---|---|---|---|---|---|
| background.js:189-202 | the UPDATE_CONFIG reply's `nextPingTime` is computed right away, before the `.then` callback that re-registers the alarm and sets `lastPingTime` to now, so it is the old anchor plus the new interval | running, last ping at 0 ms, interval 4, interval set to 5 at 180000 ms: reply 300000, real next ping 480000; popup.js:196-201 adopts the 300000 | now + new interval, the schedule the update creates | medium, not executed | ControllerSpec.UpdateResponseAsWritten | ControllerSpec.UpdateResponse |

The counterexample is proved in `ControllerSpec.StaleUpdateResponse` and, as
the panel sees it, in `System.StaleUpdateEstimate`. When the stale reply is
already past, the panel's immediate countdown tick corrects it at once, but
first shows a false "Pinging now..." (`System.PastStaleUpdateEstimate`). `Background.Controller.UpdateConfig`
returns the corrected reply.

## Left out

- offscreen.js, the tone renderer: Web Audio synthesis with floating-point timing. A tone is only an entry `Tone(frequency, duration)` in the log of requests.
- Creating, probing and closing the offscreen document (`setupOffscreenDocument`, `hasOffscreenDocument`, `closeOffscreenDocument`): host API with no effect on the schedule.
- The single retry of PLAY_TONE after 100 ms (background.js:80-91): message delivery is not modelled; each request is logged once.
- Delivery of notices: `notifyPopup`'s silent drop when no panel is open is not modelled. Handlers return the notices they send, and the `System` lemmas assume they all arrive.
- Asynchrony: each handler runs to completion. The un-awaited storage writes and the interleaving of `await`s with other handlers are not modelled. The UPDATE_CONFIG reply is under Findings. Besides it, at least two interleavings break what the model proves, and neither is modelled:
  - At browser start `restoreState` runs twice, once from the `onStartup` listener (background.js:268) and once from the top-level call (background.js:271). If the alarm was lost, both calls can pass `await chrome.alarms.get` (background.js:250) before either creates the alarm, and each plays a catch-up tone. `ControllerSpec.Restore`, applied twice in sequence, plays at most one.
  - A STOP that arrives while `startKeepAlive` waits at one of its `await`s (background.js:120-135) can be partly undone when the call resumes, which it does with `isRunning` already false. What follows depends on where it waited and on how STOP's own `await`s (background.js:147-149) interleave with it:
    - Only when the STOP came during the first `await` (background.js:120) does the resumed call start the heartbeat again (line 123), after STOP stopped it. For any later `await`, STOP's `stopHeartbeat` (line 146) runs last and the heartbeat stays off.
    - If it had not yet passed the ping (line 132), it can play a tone after the stop. That tone writes `lastPingTime` and `sk_lastPing` (background.js:71, 97) and sends TONE_PLAYED.
    - It creates the alarm (line 135). The alarm outlives the stop unless STOP's `alarms.clear` (line 148) runs after it.
    - If its STATUS_CHANGED(true, null) arrives after STOP's STATUS_CHANGED(false), the panel shows running.
- The alarm's firing time: the alarm keeps only its period. `chrome.alarms.create` without a delay first fires one period after it is created. `Heartbeat` and a `Restore` without a catch-up tone register a new alarm at now but keep the old anchor, so the next ping GET_STATUS reports (last ping + interval) can come before the alarm really fires (now + interval). The `System` lemmas are about the reported next ping, not the firing time.
- Timers: the 20-second heartbeat `setInterval`, the 1-second countdown loop and `stopCountdown`, and the test button's reset timer. Only their bodies are modelled (`Heartbeat`, `UpdateCountdownDisplay`). The tick `startCountdown` runs at once is modelled where it can change the panel (STATUS_CHANGED and the UPDATE_CONFIG reply); after loadStatus and the START callback it changes nothing, as `PanelSpec.LoadedCountdownSettled` and `PanelSpec.StartedCountdownSettled` state.
- The `chrome.runtime.onStartup` registration: `RestoreState` can be called any number of times, and the model treats each call the same.
- Badge text and colour (`updateBadge`), `updateUI`, `updateControlsFromConfig`, `updateValueDisplays` and the close handlers: DOM output only.
- `updateStats`: display only, and it uses floating-point division.
- The visualizer: it uses `Math.random` and timers.
- The description strings: only which preset's description is shown is modelled. The text is not. The frequency buttons' description line (popup.js:151) has no fallback and is display only.
- The panel's `playTest` (popup.js:237-256): it changes no panel state. It only sends PLAY_TEST with the panel's configuration, which the controller side models.
- `loadStatus`'s `if (response.config)` test: the controller always replies with a configuration, so `Status.config` is never absent. A failed query or an empty reply is the `None` case.
- Numbers: JavaScript doubles are modelled as unbounded integers. `Date.now()` and `parseInt` give integers, and NaN from a failed `parseInt` is not modelled.
- PanelSpec.LoadStatus: "the estimate is in the future" is proved only for a positive interval. A zero or negative interval, which the slider does not offer, leaves `now + interval` not in the future. The same holds for `PanelSpec.ToggleStarted` and `PanelSpec.CountdownTick`.
