/** The control panel of popup.js as an object: the module-level `isRunning`,
    `config` and `nextPingTime` become fields, and each listener or callback
    a method that takes the current time as a parameter. Each method is
    proved to leave the state PanelSpec prescribes; DOM updates, the
    visualizer and the timers that call these bodies are outside the model. */
module Popup {
  import opened Schedule
  import opened Countdown
  import P = PanelSpec

  class Panel {
    var isRunning: bool
    var config: Config
    var nextPingTime: Option<int>

    function Snapshot(): P.Panel
      reads this
    {
      P.Panel(isRunning, config, nextPingTime)
    }

    /** A freshly opened panel, before its status query is answered. */
    constructor ()
      ensures Snapshot() == P.Initial
    {
      isRunning := false;
      config := DefaultConfig;
      nextPingTime := None;
    }

    /** The reply to GET_STATUS, as received by loadStatus. */
    method LoadStatus(reply: Option<Status>, now: int)
      modifies this
      ensures Snapshot() == P.LoadStatus(old(Snapshot()), reply, now)
    {
      if reply.None? {
        return;
      }
      var response := reply.value;
      isRunning := response.isRunning;
      config := response.config;
      if Truthy(response.nextPing) && response.nextPing.value > now {
        nextPingTime := response.nextPing;
      } else if isRunning && response.lastPing != 0 {
        nextPingTime := Some(response.lastPing + config.interval * 60 * 1000);
        if nextPingTime.value <= now {
          nextPingTime := Some(now + P.OverdueEstimateMs);
        }
      } else if isRunning {
        nextPingTime := Some(now + config.interval * 60 * 1000);
      }
    }

    /** The listener for STATUS_CHANGED and TONE_PLAYED, at time `now`;
        `shown` is the text of the countdown's first tick, when the message
        restarts the countdown. */
    method OnMessage(message: Notice, now: int) returns (shown: Option<string>)
      modifies this
      ensures Snapshot() == P.OnNotice(old(Snapshot()), message, now)
      ensures shown.Some? <==> message.StatusChanged? && message.isRunning && Truthy(message.nextPingTime)
      ensures shown.Some? ==>
        shown.value == P.DisplayText(P.CountdownTick(old(Snapshot()).(running := true, nextPing := message.nextPingTime), now).shown)
    {
      shown := None;
      match message
      case StatusChanged(running, next) =>
        isRunning := running;
        if !isRunning {
          nextPingTime := None;
        } else if Truthy(next) {
          nextPingTime := next;
          var text := StartCountdown(now);
          shown := Some(text);
        }
      case TonePlayed(lastPing) =>
        if isRunning && lastPing != 0 {
          nextPingTime := Some(lastPing + config.interval * 60 * 1000);
        }
    }

    /** toggleKeepAlive: the command it sends, with the effect of that
        command's callback. */
    method ToggleKeepAlive(now: int) returns (command: P.Command)
      modifies this
      ensures command == P.ToggleCommand(old(Snapshot()))
      ensures old(isRunning) ==> Snapshot() == P.ToggleStopped(old(Snapshot()))
      ensures !old(isRunning) ==> Snapshot() == P.ToggleStarted(old(Snapshot()), now)
    {
      if isRunning {
        command := P.StopCommand;
        isRunning := false;
        nextPingTime := None;
      } else {
        command := P.StartCommand(config);
        isRunning := true;
        nextPingTime := Some(now + config.interval * 60 * 1000);
      }
    }

    /** The reply callback of UPDATE_CONFIG sent by the frequency buttons and
        the interval slider, at time `now`; `shown` is the text of the
        countdown's first tick, when the reply restarts the countdown. */
    method OnUpdateReply(reply: Option<int>, now: int) returns (shown: Option<string>)
      modifies this
      ensures Snapshot() == P.OnUpdateReply(old(Snapshot()), reply, now)
      ensures shown.Some? <==> Truthy(reply)
      ensures shown.Some? ==> shown.value == P.DisplayText(P.CountdownTick(old(Snapshot()).(nextPing := reply), now).shown)
    {
      shown := None;
      if Truthy(reply) {
        nextPingTime := reply;
        var text := StartCountdown(now);
        shown := Some(text);
      }
    }

    /** startCountdown: the 1-second loop it sets up is not modelled, only
        the tick it runs at once. */
    method StartCountdown(now: int) returns (text: string)
      modifies this
      ensures Snapshot() == P.CountdownTick(old(Snapshot()), now).next
      ensures text == P.DisplayText(P.CountdownTick(old(Snapshot()), now).shown)
    {
      text := UpdateCountdownDisplay(now);
    }

    /** A frequency button: the new frequency, and the configuration sent
        with UPDATE_CONFIG when running. */
    method SelectFrequency(frequency: int) returns (update: Option<Config>)
      modifies this
      ensures Snapshot() == old(Snapshot()).(config := old(config).(frequency := frequency))
      ensures update == P.UpdateRequest(Snapshot())
    {
      config := config.(frequency := frequency);
      update := if isRunning then Some(config) else None;
    }

    /** The duration slider. */
    method SetDuration(duration: int) returns (update: Option<Config>)
      modifies this
      ensures Snapshot() == old(Snapshot()).(config := old(config).(duration := duration))
      ensures update == P.UpdateRequest(Snapshot())
    {
      config := config.(duration := duration);
      update := if isRunning then Some(config) else None;
    }

    /** The interval slider. */
    method SetInterval(interval: int) returns (update: Option<Config>)
      modifies this
      ensures Snapshot() == old(Snapshot()).(config := old(config).(interval := interval))
      ensures update == P.UpdateRequest(Snapshot())
    {
      config := config.(interval := interval);
      update := if isRunning then Some(config) else None;
    }

    /** updateCountdownDisplay: the text written to the countdown element. */
    method UpdateCountdownDisplay(now: int) returns (text: string)
      modifies this
      ensures Snapshot() == P.CountdownTick(old(Snapshot()), now).next
      ensures text == P.DisplayText(P.CountdownTick(old(Snapshot()), now).shown)
    {
      if !isRunning || !Truthy(nextPingTime) {
        text := "Not running";
        return;
      }
      var remaining := nextPingTime.value - now;
      if remaining <= 0 {
        text := "Pinging now...";
        nextPingTime := Some(now + config.interval * 60 * 1000);
      } else {
        var minutes := remaining / 60000;
        var seconds := (remaining % 60000) / 1000;
        var minStr := DecimalString(minutes);
        var secStr := PadTwo(DecimalString(seconds));
        text := minStr + "m " + secStr + "s";
      }
    }
  }
}
