/** The control panel of popup.js, on values: its own copy of the run flag
    and the configuration, and its display estimate of the next ping, with
    the functions by which the status reply, the broadcast notices, the
    toggle callbacks, the configuration controls and the countdown tick
    change them. The estimate is for display only; it does not drive the
    controller's schedule. */
module PanelSpec {
  import opened Schedule
  import opened Countdown

  /** `nextPing` is the panel's `nextPingTime`: null, or a time in ms. */
  datatype Panel = Panel(running: bool, config: Config, nextPing: Option<int>)

  /** The module-level initialisers of popup.js. */
  const Initial: Panel := Panel(false, DefaultConfig, None)

  /** How soon an overdue ping is expected, in ms. */
  const OverdueEstimateMs: int := 5000

  /** A time strictly after `now`. */
  predicate Future(t: Option<int>, now: int) {
    t.Some? && t.value > now
  }

  /** The controller's reply carries a next ping `loadStatus` adopts as is. */
  predicate AdoptsReply(st: Status, now: int) {
    Truthy(st.nextPing) && st.nextPing.value > now
  }

  /** The callback of loadStatus. `reply` is `None` when the query failed or
      brought no answer; then nothing changes. Otherwise the panel takes the
      run flag and configuration, and estimates the next ping: the reply's
      own when it is in the future, else one interval after the last ping,
      or five seconds from now if that is past, else one interval from now;
      a stopped panel without a future reply keeps its estimate. */
  function LoadStatus(p: Panel, reply: Option<Status>, now: int): (r: Panel)
    ensures reply.None? ==> r == p
    ensures reply.Some? ==> r.running == reply.value.isRunning && r.config == reply.value.config
    ensures reply.Some? && AdoptsReply(reply.value, now) ==> r.nextPing == reply.value.nextPing
    ensures reply.Some? && !AdoptsReply(reply.value, now) && reply.value.isRunning && reply.value.lastPing != 0 ==>
      var due := reply.value.lastPing + IntervalMs(reply.value.config);
      r.nextPing == Some(if due > now then due else now + OverdueEstimateMs)
    ensures reply.Some? && !AdoptsReply(reply.value, now) && reply.value.isRunning && reply.value.lastPing == 0 ==>
      r.nextPing == Some(now + IntervalMs(reply.value.config))
    ensures reply.Some? && !AdoptsReply(reply.value, now) && !reply.value.isRunning ==> r.nextPing == p.nextPing
    ensures reply.Some? && (AdoptsReply(reply.value, now) || (reply.value.isRunning && reply.value.config.interval > 0)) ==>
      Future(r.nextPing, now)
  {
    match reply
    case None => p
    case Some(st) =>
      var q := p.(running := st.isRunning, config := st.config);
      if Truthy(st.nextPing) && st.nextPing.value > now then q.(nextPing := st.nextPing)
      else if q.running && st.lastPing != 0 then
        var estimate := st.lastPing + q.config.interval * 60 * 1000;
        if estimate > now then q.(nextPing := Some(estimate))
        else q.(nextPing := Some(now + OverdueEstimateMs))
      else if q.running then q.(nextPing := Some(now + q.config.interval * 60 * 1000))
      else q
  }

  /** STATUS_CHANGED: a stop clears the estimate; a start adopts a non-zero
      next ping and restarts the countdown, whose first tick, at once, moves
      an estimate that is already past to one interval from now; otherwise
      the estimate stays. */
  function OnStatusChanged(p: Panel, isRunning: bool, nextPingTime: Option<int>, now: int): (r: Panel)
    ensures r.running == isRunning && r.config == p.config
    ensures !isRunning ==> r.nextPing.None?
    ensures isRunning && Truthy(nextPingTime) && nextPingTime.value > now ==> r.nextPing == nextPingTime
    ensures isRunning && Truthy(nextPingTime) && nextPingTime.value <= now ==>
      r.nextPing == Some(now + IntervalMs(p.config))
    ensures isRunning && !Truthy(nextPingTime) ==> r.nextPing == p.nextPing
  {
    if !isRunning then p.(running := false, nextPing := None)
    else if Truthy(nextPingTime) then CountdownTick(p.(running := true, nextPing := nextPingTime), now).next
    else p.(running := true)
  }

  /** TONE_PLAYED: a running panel re-anchors one interval after the ping
      reported (a ping time of 0 is ignored, as JavaScript's falsy 0). */
  function OnTonePlayed(p: Panel, lastPingTime: int): (r: Panel)
    ensures r.running == p.running && r.config == p.config
    ensures p.running && lastPingTime != 0 ==> r.nextPing == Some(lastPingTime + IntervalMs(p.config))
    ensures !(p.running && lastPingTime != 0) ==> r == p
  {
    if p.running && lastPingTime != 0 then p.(nextPing := Some(lastPingTime + p.config.interval * 60 * 1000))
    else p
  }

  /** The message listener of the panel, at time `now`. */
  function OnNotice(p: Panel, n: Notice, now: int): (r: Panel)
    ensures n.StatusChanged? ==> r == OnStatusChanged(p, n.isRunning, n.nextPingTime, now)
    ensures n.TonePlayed? ==> r == OnTonePlayed(p, n.lastPingTime)
    ensures r.config == p.config
    ensures n.TonePlayed? ==> r.running == p.running
    ensures n.StatusChanged? ==> r.running == n.isRunning
    ensures n.StatusChanged? && !n.isRunning ==> r.nextPing.None?
    ensures n.TonePlayed? && p.running && n.lastPingTime != 0 ==>
      r.nextPing == Some(n.lastPingTime + IntervalMs(p.config))
  {
    match n
    case StatusChanged(isRunning, nextPingTime) => OnStatusChanged(p, isRunning, nextPingTime, now)
    case TonePlayed(lastPingTime) => OnTonePlayed(p, lastPingTime)
  }

  /** Notices delivered in order, all at time `now`. */
  function OnNotices(p: Panel, ns: seq<Notice>, now: int): Panel
    decreases |ns|
  {
    if ns == [] then p else OnNotices(OnNotice(p, ns[0], now), ns[1..], now)
  }

  /** The command toggleKeepAlive sends. */
  datatype Command = StartCommand(config: Config) | StopCommand

  function ToggleCommand(p: Panel): (c: Command)
    ensures c == StopCommand <==> p.running
    ensures c.StartCommand? ==> c.config == p.config
  {
    if p.running then StopCommand else StartCommand(p.config)
  }

  /** The callback of STOP. */
  function ToggleStopped(p: Panel): (r: Panel)
    ensures !r.running && r.nextPing.None? && r.config == p.config
  {
    p.(running := false, nextPing := None)
  }

  /** The callback of START: the timer just started, so the next ping is one
      interval from now. */
  function ToggleStarted(p: Panel, now: int): (r: Panel)
    ensures r.running && r.config == p.config
    ensures r.nextPing == Some(now + IntervalMs(p.config))
    ensures p.config.interval > 0 ==> Future(r.nextPing, now)
  {
    p.(running := true, nextPing := Some(now + p.config.interval * 60 * 1000))
  }

  /** The reply callback of UPDATE_CONFIG for the frequency and interval
      controls: a non-zero next ping is adopted and the countdown restarted,
      and its first tick, at once, moves a reply that is already past to one
      interval from now. */
  function OnUpdateReply(p: Panel, nextPingTime: Option<int>, now: int): (r: Panel)
    ensures r.running == p.running && r.config == p.config
    ensures p.running && Truthy(nextPingTime) && nextPingTime.value > now ==> r.nextPing == nextPingTime
    ensures p.running && Truthy(nextPingTime) && nextPingTime.value <= now ==>
      r.nextPing == Some(now + IntervalMs(p.config))
    ensures !p.running && Truthy(nextPingTime) ==> r.nextPing == nextPingTime
    ensures !Truthy(nextPingTime) ==> r == p
  {
    if Truthy(nextPingTime) then CountdownTick(p.(nextPing := nextPingTime), now).next else p
  }

  /** The configuration controls only send UPDATE_CONFIG while running. */
  function UpdateRequest(p: Panel): (u: Option<Config>)
    ensures u.Some? <==> p.running
    ensures u.Some? ==> u.value == p.config
  {
    if p.running then Some(p.config) else None
  }

  /** What the countdown element shows. */
  datatype Display = NotRunning | PingingNow | Remaining(clock: Clock)

  function DisplayText(d: Display): string {
    match d
    case NotRunning => "Not running"
    case PingingNow => "Pinging now..."
    case Remaining(c) => ClockText(c)
  }

  /** One run of updateCountdownDisplay: the panel afterwards and what it shows. */
  datatype Tick = Tick(next: Panel, shown: Display)

  /** updateCountdownDisplay: "Not running" without a running estimate; an
      overdue estimate is moved one interval past now; otherwise the time
      left is split into minutes and seconds. */
  function CountdownTick(p: Panel, now: int): (r: Tick)
    ensures r.next.running == p.running && r.next.config == p.config
    ensures !p.running || !Truthy(p.nextPing) ==> r == Tick(p, NotRunning)
    ensures p.running && Truthy(p.nextPing) && p.nextPing.value <= now ==>
      r.shown == PingingNow && r.next.nextPing == Some(now + IntervalMs(p.config))
    ensures p.running && Truthy(p.nextPing) && p.nextPing.value > now ==>
      var remaining := p.nextPing.value - now;
      && r.next == p && r.shown.Remaining?
      && r.shown.clock.seconds <= 59
      && r.shown.clock.minutes * MsPerMinute + r.shown.clock.seconds * MsPerSecond <= remaining
      && remaining < r.shown.clock.minutes * MsPerMinute + (r.shown.clock.seconds + 1) * MsPerSecond
    ensures p.running && Truthy(p.nextPing) && p.config.interval > 0 ==> Future(r.next.nextPing, now)
  {
    if !p.running || !Truthy(p.nextPing) then Tick(p, NotRunning)
    else
      var remaining := p.nextPing.value - now;
      if remaining <= 0 then Tick(p.(nextPing := Some(now + p.config.interval * 60 * 1000)), PingingNow)
      else Tick(p, Remaining(SplitRemaining(remaining)))
  }

  /** The countdown that loadStatus starts has nothing left to correct: its
      first tick leaves the panel as the status reply left it. */
  lemma LoadedCountdownSettled(p: Panel, st: Status, now: int)
    ensures var q := LoadStatus(p, Some(st), now);
            CountdownTick(q, now).next == q
  {
  }

  /** Likewise for the countdown the START callback starts. */
  lemma StartedCountdownSettled(p: Panel, now: int)
    ensures var q := ToggleStarted(p, now);
            CountdownTick(q, now).next == q
  {
  }

  /** The frequencies that have a description. */
  const Presets: set<int> := {20000, 19000, 1000, 100, 30, 50}

  /** `freqDescriptions[f] || freqDescriptions[20000]`, as the preset whose
      description is shown: that of `f` if it has one, else that of 20 kHz. */
  function DescribedPreset(f: int): (k: int)
    ensures k in Presets
    ensures f in Presets ==> k == f
    ensures f !in Presets ==> k == 20000
  {
    if f in Presets then f else 20000
  }
}
