/** The controller and the panel together: when the panel's estimate of the
    next ping agrees with the next ping the controller reports (its
    calculateNextPingTime, one interval after the last ping), after the
    exchanges of popup.js with background.js. That reported time is not
    always when the alarm really fires: the alarm's firing time is not part
    of the model. Each exchange is taken to complete before the next begins,
    and every notice to reach the open panel. */
module System {
  import opened Schedule
  import C = ControllerSpec
  import P = PanelSpec

  /** Pressing start on a stopped panel of a stopped controller: the START
      callback's estimate is the controller's next ping, and the two notices
      START broadcasts leave the panel as the callback did. */
  lemma {:induction false} StartAgreement(s: C.State, p: P.Panel, now: int)
    requires !s.running && !p.running
    ensures P.ToggleCommand(p) == P.StartCommand(p.config)
    ensures var c := C.Start(s, p.config, now);
            var q := P.ToggleStarted(p, now);
            && q.nextPing == C.NextPingTime(c.next)
            && P.OnNotices(q, c.sent, now) == q
  {
    var c := C.Start(s, p.config, now);
    var q := P.ToggleStarted(p, now);
    var afterTone := P.OnNotice(q, c.sent[0], now);
    assert afterTone == q;
    assert P.OnNotice(afterTone, c.sent[1], now) == q;
    assert c.sent[1..][1..] == [];
    assert P.OnNotices(q, c.sent, now) == P.OnNotices(afterTone, c.sent[1..], now);
  }

  /** START as the two sides see it at different times: the callback at
      `t0`, the controller's first ping at `t1` and the notices received at
      `t2`, within one interval of the ping. The notices bring the panel to
      the controller's next ping whatever the callback estimated. */
  lemma {:induction false} StartAgreementTimes(s: C.State, p: P.Panel, t0: int, t1: int, t2: int)
    requires !s.running && !p.running
    requires t1 != 0 && t1 <= t2 < t1 + IntervalMs(p.config)
    ensures var c := C.Start(s, p.config, t1);
            P.OnNotices(P.ToggleStarted(p, t0), c.sent, t2).nextPing == C.NextPingTime(c.next)
  {
    var c := C.Start(s, p.config, t1);
    var q := P.ToggleStarted(p, t0);
    var afterTone := P.OnNotice(q, c.sent[0], t2);
    assert afterTone.nextPing == Some(t1 + IntervalMs(p.config));
    assert c.sent[1..][1..] == [];
    assert P.OnNotices(q, c.sent, t2) == P.OnNotices(afterTone, c.sent[1..], t2);
    assert P.OnNotices(afterTone, c.sent[1..], t2) == P.OnNotice(afterTone, c.sent[1], t2);
  }

  /** A panel opened within one interval of a START adopts the controller's
      status and its next ping as they are. */
  lemma OpenAfterStart(s: C.State, p: P.Panel, cfg: Config, now: int, t: int)
    requires !s.running
    requires 0 <= now <= t < now + IntervalMs(cfg)
    ensures var c := C.Start(s, cfg, now).next;
            P.LoadStatus(p, Some(C.GetStatus(c)), t) == P.Panel(true, cfg, C.NextPingTime(c))
  {
  }

  /** A panel opened after a ping was missed expects the next one within
      five seconds. */
  lemma OpenWhenOverdue(s: C.State, p: P.Panel, t: int)
    requires s.running && s.lastPing != 0 && s.lastPing + IntervalMs(s.config) <= t
    ensures P.LoadStatus(p, Some(C.GetStatus(s)), t).nextPing == Some(t + P.OverdueEstimateMs)
  {
  }

  /** An alarm ping re-anchors a running panel on the controller's new next
      ping through TONE_PLAYED. */
  lemma PingAgreement(s: C.State, p: P.Panel, now: int)
    requires s.running && p.running && p.config == s.config && now != 0
    ensures var c := C.OnAlarm(s, C.AlarmName, now);
            P.OnNotices(p, c.sent, now).nextPing == C.NextPingTime(c.next)
  {
  }

  /** STOP's broadcast leaves the panel as the STOP callback does, with no
      next ping on either side. */
  lemma StopAgreement(s: C.State, p: P.Panel, now: int)
    ensures var c := C.Stop(s);
            && P.OnNotices(p, c.sent, now) == P.ToggleStopped(p)
            && P.ToggleStopped(p).nextPing == C.NextPingTime(c.next)
  {
  }

  /** An interval change while running: the panel that adopts the reply the
      controller gives after re-anchoring shows the controller's next ping. */
  lemma UpdateAgreement(s: C.State, p: P.Panel, cfg: Config, now: int)
    requires s.running && p.running
    requires now + IntervalMs(cfg) != 0
    ensures var q := P.OnUpdateReply(p.(config := cfg), C.UpdateResponse(s, cfg, now), now);
            q.nextPing == C.NextPingTime(C.UpdateConfig(s, cfg, now))
  {
  }

  /** With the reply as background.js:202 computes it, the same exchange
      leaves the panel counting down to a time three minutes before the
      controller's next ping: the stale reply is still ahead of now, so the
      countdown's first tick keeps it. */
  lemma StaleUpdateEstimate()
    ensures var s := C.State(true, Config(20000, 200, 4), 0, true, Some(4), C.Store(None, Some(true), Some(0), None), []);
            var p := P.Panel(true, Config(20000, 200, 4), Some(240000));
            var cfg := Config(20000, 200, 5);
            var q := P.OnUpdateReply(p.(config := cfg), C.UpdateResponseAsWritten(s, cfg), 180000);
            && q.nextPing == Some(300000)
            && C.NextPingTime(C.UpdateConfig(s, cfg, 180000)) == Some(480000)
  {
  }

  /** A stale reply that is already past: interval 10 lowered to 5 at
      480000 ms gives the reply 300000. The countdown's first tick shows
      "Pinging now..." although no ping is due, and moves the estimate to
      780000, the controller's real next ping. */
  lemma PastStaleUpdateEstimate()
    ensures var s := C.State(true, Config(20000, 200, 10), 0, true, Some(10), C.Store(None, Some(true), Some(0), None), []);
            var p := P.Panel(true, Config(20000, 200, 10), Some(600000));
            var cfg := Config(20000, 200, 5);
            var reply := C.UpdateResponseAsWritten(s, cfg);
            && reply == Some(300000)
            && P.CountdownTick(p.(config := cfg, nextPing := reply), 480000).shown == P.PingingNow
            && P.OnUpdateReply(p.(config := cfg), reply, 480000).nextPing == Some(780000)
            && C.NextPingTime(C.UpdateConfig(s, cfg, 480000)) == Some(780000)
  {
  }
}
