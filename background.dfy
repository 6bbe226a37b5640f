/** The controller of background.js as an object: the module-level variables
    become fields that each handler reassigns step by step, and the host
    state it drives (the "keepAlive" alarm, the key-value store, the tones
    sent to the renderer) becomes three more fields. Every handler takes the
    current time `now` as a parameter and returns the notices it broadcasts.
    Each method is proved to produce exactly the state and notices of the
    corresponding function of ControllerSpec, where the properties of the
    schedule are proved. */
module Background {
  import opened Schedule
  import S = ControllerSpec

  class Controller {
    var isRunning: bool
    var config: Config
    var lastPingTime: int
    /** Whether the 20-second heartbeat timer is set (`heartbeatInterval`). */
    var heartbeatActive: bool
    /** The "keepAlive" alarm: absent, or present with its period in minutes. */
    var alarm: Option<int>
    var store: S.Store
    /** Every PLAY_TONE request sent to the renderer so far. */
    var tones: seq<Tone>

    /** The whole controller and host state as one value. */
    function Snapshot(): S.State
      reads this
    {
      S.State(isRunning, config, lastPingTime, heartbeatActive, alarm, store, tones)
    }

    /** A new controller process over the host state that outlived the last
        one; restoreState is then run on it (background.js:271). */
    constructor (alarm0: Option<int>, store0: S.Store, tones0: seq<Tone>)
      ensures Snapshot() == S.Fresh(alarm0, store0, tones0)
    {
      isRunning := false;
      config := DefaultConfig;
      lastPingTime := 0;
      heartbeatActive := false;
      alarm := alarm0;
      store := store0;
      tones := tones0;
    }

    /** startHeartbeat: sets the timer once. */
    method StartHeartbeat()
      modifies this
      ensures Snapshot() == old(Snapshot()).(heartbeat := true)
    {
      if heartbeatActive {
        return;
      }
      heartbeatActive := true;
    }

    method PlayTone(now: int) returns (sent: seq<Notice>)
      modifies this
      ensures Snapshot() == S.PlayTone(old(Snapshot()), now).next
      ensures sent == S.PlayTone(old(Snapshot()), now).sent
    {
      lastPingTime := now;
      tones := tones + [ToneOf(config)];
      sent := [TonePlayed(lastPingTime)];
      store := store.(lastPing := Some(lastPingTime));
    }

    method StartKeepAlive(now: int) returns (sent: seq<Notice>)
      modifies this
      ensures Snapshot() == S.StartKeepAlive(old(Snapshot()), now).next
      ensures sent == S.StartKeepAlive(old(Snapshot()), now).sent
    {
      if isRunning {
        return [];
      }
      isRunning := true;
      store := store.(running := Some(true));
      StartHeartbeat();
      if store.config.Some? {
        config := store.config.value;
      }
      sent := PlayTone(now);
      alarm := Some(config.interval);
      sent := sent + [StatusChanged(true, S.NextPingTime(Snapshot()))];
    }

    /** START. */
    method Start(cfg: Config, now: int) returns (sent: seq<Notice>)
      modifies this
      ensures Snapshot() == S.Start(old(Snapshot()), cfg, now).next
      ensures sent == S.Start(old(Snapshot()), cfg, now).sent
    {
      config := cfg;
      store := store.(config := Some(config));
      sent := StartKeepAlive(now);
    }

    /** STOP. */
    method Stop() returns (sent: seq<Notice>)
      modifies this
      ensures Snapshot() == S.Stop(old(Snapshot())).next
      ensures sent == S.Stop(old(Snapshot())).sent
    {
      isRunning := false;
      heartbeatActive := false;
      store := store.(running := Some(false));
      alarm := None;
      lastPingTime := 0;
      sent := [StatusChanged(false, None)];
    }

    /** GET_STATUS: answers from the current state and changes nothing. */
    method GetStatus() returns (st: Status)
      ensures st.isRunning == isRunning && st.config == config && st.lastPing == lastPingTime
      ensures st.nextPing.None? <==> !isRunning
      ensures isRunning ==> st.nextPing == Some(lastPingTime + config.interval * MsPerMinute)
    {
      var nextPing := S.NextPingTime(Snapshot());
      st := Status(isRunning, config, nextPing, lastPingTime);
    }

    /** UPDATE_CONFIG; `nextPingTime` is the reply, taken after the schedule
        has been re-anchored (the reply of background.js:202 is taken before,
        see ControllerSpec.UpdateResponseAsWritten). */
    method UpdateConfig(cfg: Config, now: int) returns (nextPingTime: Option<int>)
      modifies this
      ensures Snapshot() == S.UpdateConfig(old(Snapshot()), cfg, now)
      ensures nextPingTime == S.UpdateResponse(old(Snapshot()), cfg, now)
    {
      config := cfg;
      store := store.(config := Some(config));
      if isRunning {
        alarm := None;
        alarm := Some(config.interval);
        lastPingTime := now;
      }
      nextPingTime := S.NextPingTime(Snapshot());
    }

    /** PLAY_TEST (with playTestTone). */
    method PlayTest(cfg: Config)
      modifies this
      ensures Snapshot() == S.PlayTest(old(Snapshot()), cfg)
    {
      config := cfg;
      tones := tones + [TestTone];
    }

    /** The alarm listener. */
    method OnAlarm(name: string, now: int) returns (sent: seq<Notice>)
      modifies this
      ensures Snapshot() == S.OnAlarm(old(Snapshot()), name, now).next
      ensures sent == S.OnAlarm(old(Snapshot()), name, now).sent
    {
      sent := [];
      if name == S.AlarmName && isRunning {
        sent := PlayTone(now);
      }
    }

    /** The body of the 20-second heartbeat timer. */
    method Heartbeat(now: int)
      requires heartbeatActive
      modifies this
      ensures Snapshot() == S.Heartbeat(old(Snapshot()), now)
    {
      store := store.(heartbeat := Some(now));
      if isRunning {
        if alarm.None? {
          alarm := Some(config.interval);
        }
      }
    }

    /** restoreState. */
    method RestoreState(now: int) returns (sent: seq<Notice>)
      modifies this
      ensures Snapshot() == S.Restore(old(Snapshot()), now).next
      ensures sent == S.Restore(old(Snapshot()), now).sent
    {
      sent := [];
      if store.running != Some(true) {
        return;
      }
      if store.config.Some? {
        config := store.config.value;
      }
      lastPingTime := if store.lastPing.Some? && store.lastPing.value != 0 then store.lastPing.value else 0;
      isRunning := true;
      StartHeartbeat();
      if alarm.None? {
        alarm := Some(config.interval);
        var nextPing := S.NextPingTime(Snapshot());
        if !Truthy(nextPing) || nextPing.value < now {
          sent := PlayTone(now);
        }
      }
    }
  }

  /** Starting twice: the second START with the same configuration leaves
      the object as the first left it and broadcasts nothing. */
  method StartTwiceOnObject(c: Controller, cfg: Config, t1: int, t2: int) returns (second: seq<Notice>)
    modifies c
    ensures c.Snapshot() == S.Start(old(c.Snapshot()), cfg, t1).next
    ensures second == []
  {
    var first := c.Start(cfg, t1);
    var afterFirst := c.Snapshot();
    S.StartTwice(old(c.Snapshot()), cfg, t1, t2);
    second := c.Start(cfg, t2);
    assert c.Snapshot() == afterFirst;
  }

  /** The scenario of a restart ten minutes after a ping with interval 4 and
      no surviving alarm: the restored controller pings at once. */
  method RestartCatchesUp(cfg: Config, t: int, tones0: seq<Tone>) returns (c: Controller)
    requires cfg.interval == 4
    ensures c.isRunning && c.lastPingTime == t + 10 * MsPerMinute
    ensures c.tones == tones0 + [ToneOf(cfg)]
    ensures c.alarm == Some(4)
  {
    c := new Controller(None, S.Store(Some(cfg), Some(true), Some(t), None), tones0);
    var sent := c.RestoreState(t + 10 * MsPerMinute);
  }
}
