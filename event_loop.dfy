/**
 * The heartbeat between the application and its interface: a heartbeat is sent every 30 s, and
 * the application closes when the interface has not answered for 60 s.
 */
module EventLoop {
  import opened AppState

  const FRONTEND_TIMEOUT: real := 60.0
  const HEARTBEAT_SEND_INTERVAL: real := 30.0

  /** The loop's globals: the last send, the last heartbeat of the interface, the first-run flag. */
  datatype Beat = Beat(lastSend: real, lastFrontend: real, firstRun: bool)

  /** What one tick does: the new globals, whether a heartbeat is sent, whether close is signalled. */
  datatype TickResult = TickResult(beat: Beat, send: bool, close: bool)

  /**
   * One tick at time `now`.  `received` says whether the interface's heartbeat arrived; the clock
   * is read a second time (`later`) when it is stored.
   */
  function Step(b: Beat, now: real, received: bool, later: real): TickResult {
    var first := if b.firstRun then Beat(now, now, false) else b;
    var send := now - first.lastSend > HEARTBEAT_SEND_INTERVAL;
    var sent := if send then first.(lastSend := now) else first;
    var heard := if received then sent.(lastFrontend := later) else sent;
    TickResult(heard, send, now - heard.lastFrontend > FRONTEND_TIMEOUT)
  }

  /** The first tick sends nothing and never closes, and afterwards the first-run flag is down. */
  lemma FirstTick(b: Beat, now: real, received: bool, later: real)
    requires b.firstRun && (received ==> later >= now)
    ensures var r := Step(b, now, received, later);
      !r.send && !r.close && !r.beat.firstRun && r.beat.lastSend == now
      && r.beat.lastFrontend == (if received then later else now)
  {
  }

  /** A heartbeat is sent exactly when more than 30 s passed since the last one, which is then now. */
  lemma SendIff(b: Beat, now: real, received: bool, later: real)
    requires !b.firstRun
    ensures var r := Step(b, now, received, later);
      && (r.send <==> now - b.lastSend > HEARTBEAT_SEND_INTERVAL)
      && r.beat.lastSend == (if r.send then now else b.lastSend)
  {
  }

  /**
   * Closing is signalled exactly when more than 60 s passed since the interface was last heard
   * (after this tick's heartbeat), so a heartbeat read at a clock no earlier than `now` prevents it.
   */
  lemma CloseIff(b: Beat, now: real, received: bool, later: real)
    requires !b.firstRun
    ensures var r := Step(b, now, received, later);
      && (r.close <==> now - (if received then later else b.lastFrontend) > FRONTEND_TIMEOUT)
      && (received && later >= now ==> !r.close)
  {
  }

  class AppEventLoop {
    var lastHeartbeatSendTime: real
    var lastFrontendHeartbeatTime: real
    var firstRun: bool

    function Model(): Beat
      reads this
    {
      Beat(lastHeartbeatSendTime, lastFrontendHeartbeatTime, firstRun)
    }

    constructor ()
      ensures Model() == Beat(0.0, 0.0, true)
    {
      lastHeartbeatSendTime := 0.0;
      lastFrontendHeartbeatTime := 0.0;
      firstRun := true;
    }

    /**
     * `app_event_loop`: one tick.  The interface's heartbeat is consumed; `send` says whether a
     * heartbeat goes to the interface; a close is signalled, never withdrawn.
     */
    method Tick(events: Events, now: real, later: real) returns (send: bool)
      modifies this, events`heartbeat, events`close
      ensures var r := Step(old(Model()), now, old(events.heartbeat), later);
        && Model() == r.beat && send == r.send && events.close == (old(events.close) || r.close)
      ensures !events.heartbeat
    {
      if firstRun {
        lastHeartbeatSendTime := now;
        lastFrontendHeartbeatTime := now;
        firstRun := false;
      }
      send := false;
      if now - lastHeartbeatSendTime > HEARTBEAT_SEND_INTERVAL {
        lastHeartbeatSendTime := now;
        send := true;
      }
      if events.heartbeat {
        lastFrontendHeartbeatTime := later;
        events.heartbeat := false;
      }
      if now - lastFrontendHeartbeatTime > FRONTEND_TIMEOUT {
        events.close := true;
      }
    }
  }
}
