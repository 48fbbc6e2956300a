/**
 * One tick of the orchestrator loop: turn a quit request of the interface into two queued
 * commands, report a game that is shutting down, publish the live flag, and run the command
 * queue, last.
 */
module Rf2Greenlet {
  import opened Common
  import opened AppState
  import opened Rf2Connect
  import opened Rf2Command

  const SHUTDOWN_STATUS := "Waiting for shut down of rFactor 2 processes."

  /** The commands a quit request of the interface appends: wait until Ready, then quit. */
  const QUIT_REQUEST_ORDERS: seq<Order> :=
    [Order(WaitForState, Int(StateCode(Ready)), 10.0), Order(Quit, NoData, 10.0)]

  /** The polling interval once the live flag has been updated: lowered when the game just came up. */
  function LiveInterval(state: RfactorState, wasLive: bool, interval: real): (r: real)
    ensures state != Unavailable && !wasLive ==> r == ActiveInterval(interval)
    ensures state == Unavailable || wasLive ==> r == interval
  {
    if state != Unavailable && !wasLive then ActiveInterval(interval) else interval
  }

  /**
   * Whatever the live update did to the interval, the queue's active clamp afterwards gives the
   * same interval as clamping the original one.
   */
  lemma LiveThenActive(state: RfactorState, wasLive: bool, interval: real)
    ensures ActiveInterval(LiveInterval(state, wasLive, interval)) == ActiveInterval(interval)
  {
    ClampsIdempotent(interval);
  }

  /** Everything before the queue runs: the quit request, the shutdown report and the live flag. */
  method Prepare(q: CommandQueue, conn: RfactorConnect, events: Events, now: real)
    modifies q`queue, events`quitRequested, events`status, events`live, conn`interval
    ensures !events.quitRequested
    ensures Orders(q.queue) == Orders(old(q.queue)) + (if old(events.quitRequested) then QUIT_REQUEST_ORDERS else [])
    ensures q.queue[..|old(q.queue)|] == old(q.queue)
    ensures old(events.quitRequested) ==>
              (|q.queue| == |old(q.queue)| + 2 && fresh(q.queue[|old(q.queue)|])
               && !q.queue[|old(q.queue)|].finished && !q.queue[|old(q.queue)|].resetQueue)
    ensures !old(events.quitRequested) ==> q.queue == old(q.queue)
    ensures events.status == (if conn.state == WaitingForProcess then SHUTDOWN_STATUS else old(events.status))
    ensures events.live == (conn.state != Unavailable)
    ensures conn.interval == LiveInterval(conn.state, old(events.live), old(conn.interval))
  {
    if events.quitRequested {
      q.AppendNew(WaitForState, Int(StateCode(Ready)), Some(10.0), now);
      ghost var first := q.queue;
      q.AppendNew(Quit, NoData, Some(10.0), now);
      assert q.queue[..|old(q.queue)|] == first[..|old(q.queue)|];
      events.quitRequested := false;
    }
    if conn.state == WaitingForProcess {
      events.status := SHUTDOWN_STATUS;
    }
    if conn.state != Unavailable && !events.live {
      events.live := true;
      conn.SetToActiveTimeout();
    } else if conn.state == Unavailable {
      events.live := false;
    }
  }

  /** `Prepare`, stated as what the run of the queue that follows relies on. */
  method PrepareForRun(q: CommandQueue, conn: RfactorConnect, events: Events, now: real)
    modifies q`queue, events`quitRequested, events`status, events`live, conn`interval
    ensures !events.quitRequested
    ensures Orders(q.queue) == Orders(old(q.queue)) + (if old(events.quitRequested) then QUIT_REQUEST_ORDERS else [])
    ensures old(q.queue) != [] ==> q.queue[0] == old(q.queue[0])
    ensures old(q.queue) == [] && old(events.quitRequested) ==>
              fresh(q.queue[0]) && !q.queue[0].finished && !q.queue[0].resetQueue
    ensures !old(events.quitRequested) ==> q.queue == old(q.queue)
    ensures conn.Model() == old(conn.Model()).(interval := LiveInterval(old(conn.state), old(events.live), old(conn.interval)))
    ensures events.status == (if old(conn.state) == WaitingForProcess then SHUTDOWN_STATUS else old(events.status))
    ensures events.live == (old(conn.state) != Unavailable)
  {
    Prepare(q, conn, events, now);
  }

  /** `_rfactor_greenlet_loop`: one tick; the queue runs once, after all flag updates. */
  method Tick(q: CommandQueue, conn: RfactorConnect, events: Events, settings: Settings,
              now: real, env: Env, remote: Remote) returns (executed: Command?, effects: seq<Effect>)
    modifies q, q.Head(), (if q.current != null then {q.current} else {}), conn, conn.worker,
             events, settings`replayPlaying
    ensures !events.quitRequested
    // which command runs
    ensures old(q.KeepsCurrent(now)) ==> executed == old(q.current)
    ensures !old(q.KeepsCurrent(now)) && old(q.Resets()) ==> executed == null && q.queue == []
    ensures !old(q.KeepsCurrent(now)) && !old(q.Resets()) && old(q.queue) != [] ==> executed == old(q.queue[0])
    ensures !old(q.KeepsCurrent(now)) && !old(q.Resets()) && old(q.queue) == [] && old(events.quitRequested) ==>
              executed != null && OrderOf(executed) == QUIT_REQUEST_ORDERS[0]
              && Orders(q.queue) == [QUIT_REQUEST_ORDERS[1]]
    ensures !old(q.KeepsCurrent(now)) && !old(q.Resets()) && old(q.queue) == [] && !old(events.quitRequested) ==>
              executed == null
    // the connection: active polling unless the queue went idle
    ensures !IdleTick(executed, now, old(q.lastCommandTime)) ==>
              conn.Model() == CheckConnectionSpec(old(conn.Model()).(interval := ActiveInterval(old(conn.interval))), now, env)
    ensures IdleTick(executed, now, old(q.lastCommandTime)) ==>
              conn.Model() == CheckConnectionSpec(old(conn.Model()).(interval :=
                IdleInterval(LiveInterval(old(conn.state), old(events.live), old(conn.interval)))), now, env)
    // the signals, when no command ran
    ensures executed == null ==> events.live == (old(conn.state) != Unavailable)
    ensures executed == null && !IdleTick(executed, now, old(q.lastCommandTime)) ==>
              effects == [] && q.lastCommandTime == old(q.lastCommandTime)
              && events.status == (if old(conn.state) == WaitingForProcess then SHUTDOWN_STATUS else old(events.status))
    ensures IdleTick(executed, now, old(q.lastCommandTime)) ==>
              events.status == "" && effects == [] && q.lastCommandTime == old(q.lastCommandTime)
    // the queue left behind: the quit request's orders after what was waiting
    ensures old(q.KeepsCurrent(now)) ==>
              Orders(q.queue) == Orders(old(q.queue)) + (if old(events.quitRequested) then QUIT_REQUEST_ORDERS else [])
    ensures !old(q.KeepsCurrent(now)) && !old(q.Resets()) && old(q.queue) != [] ==>
              Orders(q.queue) == Orders(old(q.queue)[1..]) + (if old(events.quitRequested) then QUIT_REQUEST_ORDERS else [])
    // the executed command's outcome, as its handler says
    ensures executed != null ==>
              var o := Handle(executed.kind, executed.data, conn.state, conn.restApiEnabled, remote);
              && q.lastCommandTime == now
              && effects == o.effects
              && executed.finished == (o.finished || (!old(q.KeepsCurrent(now)) && !old(q.Resets()) && old(q.queue) != []
                                                      && old(q.queue[0].finished)))
              && executed.resetQueue == (o.resetQueue || (!old(q.KeepsCurrent(now)) && !old(q.Resets()) && old(q.queue) != []
                                                          && old(q.queue[0].resetQueue)))
              && events.status == o.status.GetOr(if old(conn.state) == WaitingForProcess then SHUTDOWN_STATUS
                                                 else old(events.status))
              && events.live == (o.live || old(conn.state) != Unavailable)
              && events.quitResult == (if o.quitResult.Some? then o.quitResult else old(events.quitResult))
              && events.recordBenchmark == (o.recordBenchmark || old(events.recordBenchmark))
              && settings.replayPlaying == (o.replayPlaying || old(settings.replayPlaying))
    ensures executed == null ==>
              && events.quitResult == old(events.quitResult) && events.recordBenchmark == old(events.recordBenchmark)
              && settings.replayPlaying == old(settings.replayPlaying)
  {
    ghost var c0 := conn.Model();
    PrepareForRun(q, conn, events, now);
    executed, effects := RunQueue(q, conn, events, settings, now, env, remote,
                                  old(q.queue), old(events.quitRequested), old(events.status), old(events.live), c0,
                                  old(q.KeepsCurrent(now)), old(q.Resets()), old(q.lastCommandTime));
  }

  /**
   * The queue's run once the flags are updated, stated against the connection, the status and the
   * live flag as they were before the update.
   */
  method RunQueue(q: CommandQueue, conn: RfactorConnect, events: Events, settings: Settings, now: real, env: Env,
                  remote: Remote, ghost queue0: seq<Command>, ghost quit0: bool,
                  ghost status0: string, ghost live0: bool, ghost c0: Conn,
                  ghost keeps0: bool, ghost resets0: bool, ghost last0: real)
    returns (executed: Command?, effects: seq<Effect>)
    requires Orders(q.queue) == Orders(queue0) + (if quit0 then QUIT_REQUEST_ORDERS else [])
    requires queue0 != [] ==> q.queue[0] == queue0[0]
    requires queue0 == [] && quit0 ==> !q.queue[0].finished && !q.queue[0].resetQueue
    requires !quit0 ==> q.queue == queue0
    requires conn.Model() == c0.(interval := LiveInterval(c0.state, live0, c0.interval))
    requires events.status == (if c0.state == WaitingForProcess then SHUTDOWN_STATUS else status0)
    requires events.live == (c0.state != Unavailable)
    requires keeps0 == q.KeepsCurrent(now) && resets0 == q.Resets() && last0 == q.lastCommandTime
    modifies q, q.Head(), (if q.current != null then {q.current} else {}), conn, conn.worker,
             events`status, events`live, events`quitResult, events`recordBenchmark, settings`replayPlaying
    ensures keeps0 ==> executed == old(q.current)
    ensures !keeps0 && resets0 ==> executed == null && q.queue == []
    ensures !keeps0 && !resets0 && queue0 != [] ==> executed == queue0[0]
    ensures !keeps0 && !resets0 && queue0 == [] && quit0 ==>
              executed == old(q.queue[0]) && OrderOf(executed) == QUIT_REQUEST_ORDERS[0]
              && Orders(q.queue) == [QUIT_REQUEST_ORDERS[1]]
    ensures !keeps0 && !resets0 && queue0 == [] && !quit0 ==> executed == null
    ensures !IdleTick(executed, now, last0) ==>
              conn.Model() == CheckConnectionSpec(c0.(interval := ActiveInterval(c0.interval)), now, env)
    ensures IdleTick(executed, now, last0) ==>
              conn.Model() == CheckConnectionSpec(c0.(interval :=
                IdleInterval(LiveInterval(c0.state, live0, c0.interval))), now, env)
    ensures executed == null ==> events.live == (c0.state != Unavailable)
    ensures executed == null && !IdleTick(executed, now, last0) ==>
              effects == [] && q.lastCommandTime == last0
              && events.status == (if c0.state == WaitingForProcess then SHUTDOWN_STATUS else status0)
    ensures IdleTick(executed, now, last0) ==>
              events.status == "" && effects == [] && q.lastCommandTime == last0
    ensures keeps0 ==>
              Orders(q.queue) == Orders(queue0) + (if quit0 then QUIT_REQUEST_ORDERS else [])
    ensures !keeps0 && !resets0 && queue0 != [] ==>
              Orders(q.queue) == Orders(queue0[1..]) + (if quit0 then QUIT_REQUEST_ORDERS else [])
    ensures executed != null ==>
              var o := Handle(executed.kind, executed.data, conn.state, conn.restApiEnabled, remote);
              && q.lastCommandTime == now
              && effects == o.effects
              && executed.finished == (o.finished || old(executed.finished))
              && executed.resetQueue == (o.resetQueue || old(executed.resetQueue))
              && events.status == o.status.GetOr(if c0.state == WaitingForProcess then SHUTDOWN_STATUS else status0)
              && events.live == (o.live || c0.state != Unavailable)
              && events.quitResult == (if o.quitResult.Some? then o.quitResult else old(events.quitResult))
              && events.recordBenchmark == (o.recordBenchmark || old(events.recordBenchmark))
              && settings.replayPlaying == (o.replayPlaying || old(settings.replayPlaying))
    ensures executed == null ==>
              && events.quitResult == old(events.quitResult) && events.recordBenchmark == old(events.recordBenchmark)
              && settings.replayPlaying == old(settings.replayPlaying)
  {
    LiveThenActive(c0.state, live0, c0.interval);
    if queue0 != [] {
      OrdersTail(q.queue, queue0, if quit0 then QUIT_REQUEST_ORDERS else []);
    }
    executed, effects := q.Run(now, conn, env, events, settings, remote);
  }

  /** Taking the head off a queue that starts with `queue0` takes it off `queue0`. */
  lemma OrdersTail(s: seq<Command>, queue0: seq<Command>, extra: seq<Order>)
    requires Orders(s) == Orders(queue0) + extra && queue0 != []
    ensures Orders(s[1..]) == Orders(queue0[1..]) + extra
  {
    assert Orders(s)[1..] == Orders(queue0[1..]) + extra;
  }
}
