/**
 * The replay entry points of the interface: play a replay (switching away from a running
 * session, or launching the game first) and the playback and time controls, each of which only
 * queues commands for the orchestrator.
 */
module AppReplay {
  import opened Common
  import opened AppState
  import opened Rf2Connect
  import opened Rf2Command

  const WAIT_READY := Int(StateCode(Ready))
  const WAIT_LOADING := Int(StateCode(Loading))

  /** `_switch_replay_while_live`: back to the main menu, then play the replay. */
  function SwitchWhileLiveOrders(replayName: string): seq<Order> {
    [Order(WaitForState, WAIT_READY, 120.0), Order(NavAction, Text("NAV_BACK_TO_MAIN_MENU"), 20.0),
     Order(WaitForState, WAIT_READY, 20.0), Order(PlayReplay, Text(replayName), 30.0)]
  }

  /** The commands queued after launching the game for a replay: wait, play, wait for it to load. */
  function LaunchReplayOrders(replayName: string): seq<Order> {
    [Order(WaitForState, WAIT_READY, 120.0), Order(PlayReplay, Text(replayName), 30.0),
     Order(WaitForState, WAIT_LOADING, 30.0), Order(WaitForState, WAIT_READY, 800.0)]
  }

  /** The launch method: the replay preset's Launch option when it has one, else 1. */
  function LaunchMethod(launchOption: Option<int>): (m: int)
    ensures launchOption.None? ==> m == 1
    ensures launchOption.Some? ==> m == launchOption.value
  {
    if launchOption.Some? then launchOption.value else 1
  }

  /**
   * Both ways of playing a replay end with playing that replay and waiting for the menu first;
   * a replay is requested exactly once.
   */
  lemma ReplayOrdersPlayOnce(replayName: string)
    ensures var a := SwitchWhileLiveOrders(replayName);
            var b := LaunchReplayOrders(replayName);
      && a[0] == b[0] == Order(WaitForState, WAIT_READY, 120.0)
      && a[|a| - 1] == Order(PlayReplay, Text(replayName), 30.0)
      && (forall i, j :: 0 <= i < |a| && 0 <= j < |a| && a[i].kind == PlayReplay && a[j].kind == PlayReplay ==> i == j)
      && (forall i, j :: 0 <= i < |b| && 0 <= j < |b| && b[i].kind == PlayReplay && b[j].kind == PlayReplay ==> i == j)
  {
  }

  method SwitchReplayWhileLive(q: CommandQueue, replayName: string, now: real)
    modifies q`queue
    ensures Orders(q.queue) == Orders(old(q.queue)) + SwitchWhileLiveOrders(replayName)
  {
    q.AppendNew(WaitForState, WAIT_READY, Some(120.0), now);
    q.AppendNew(NavAction, Text("NAV_BACK_TO_MAIN_MENU"), Some(20.0), now);
    q.AppendNew(WaitForState, WAIT_READY, Some(20.0), now);
    q.AppendNew(PlayReplay, Text(replayName), Some(30.0), now);
  }

  /**
   * `play_replay`.  The game installation's validity, the replay preset's Launch option and
   * whether starting the game succeeded are inputs; `launchedWith` is the method the game was
   * started with, None when it was not started.
   */
  method StartReplay(q: CommandQueue, events: Events, replayName: string, rfValid: bool,
                    launchOption: Option<int>, launchSucceeds: bool, now: real)
    returns (result: bool, launchedWith: Option<int>)
    modifies q`queue
    ensures replayName == "" ==> !result && launchedWith == None && q.queue == old(q.queue)
    ensures replayName != "" && events.live ==>
              result && launchedWith == None
              && Orders(q.queue) == Orders(old(q.queue)) + SwitchWhileLiveOrders(replayName)
    ensures replayName != "" && !events.live && !rfValid ==>
              !result && launchedWith == None && q.queue == old(q.queue)
    ensures replayName != "" && !events.live && rfValid ==>
              launchedWith == Some(LaunchMethod(launchOption)) && result == launchSucceeds
    ensures replayName != "" && !events.live && rfValid && launchSucceeds ==>
              Orders(q.queue) == Orders(old(q.queue)) + LaunchReplayOrders(replayName)
    ensures replayName != "" && !events.live && rfValid && !launchSucceeds ==> q.queue == old(q.queue)
  {
    if replayName == "" {
      return false, None;
    }
    if events.live {
      SwitchReplayWhileLive(q, replayName, now);
      return true, None;
    }
    if !rfValid {
      return false, None;
    }
    var launchMethod := 1;
    if launchOption.Some? {
      launchMethod := launchOption.value;
    }
    launchedWith := Some(launchMethod);
    if !launchSucceeds {
      return false, launchedWith;
    }
    q.AppendNew(WaitForState, WAIT_READY, Some(120.0), now);
    q.AppendNew(PlayReplay, Text(replayName), Some(30.0), now);
    q.AppendNew(WaitForState, WAIT_LOADING, Some(30.0), now);
    q.AppendNew(WaitForState, WAIT_READY, Some(800.0), now);
    result := true;
  }

  /** `replay_playback_command`: one playback command with a 5 s timeout. */
  method ReplayPlaybackCommand(q: CommandQueue, playbackCommand: int, now: real) returns (result: bool)
    modifies q`queue
    ensures result
    ensures Orders(q.queue) == Orders(old(q.queue)) + [Order(ReplayPlayback, Int(playbackCommand), 5.0)]
  {
    q.AppendNew(ReplayPlayback, Int(playbackCommand), Some(5.0), now);
    return true;
  }

  /** `replay_time_command`: one seek command with a 5 s timeout; `text` is how the float prints. */
  method ReplayTimeCommand(q: CommandQueue, replayTime: real, text: string, now: real) returns (result: bool)
    modifies q`queue
    ensures result
    ensures Orders(q.queue) == Orders(old(q.queue)) + [Order(ReplayTime, Num(replayTime, text), 5.0)]
  {
    q.AppendNew(ReplayTime, Num(replayTime, text), Some(5.0), now);
    return true;
  }
}
