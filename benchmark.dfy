/**
 * Benchmark runs and the command sequences that drive a benchmark.
 *
 * A `BenchmarkRun` takes its id from a process-wide counter (`RunIds`); `BenchmarkQueue` is the
 * FIFO of pending runs with removal by id.  `CreateBenchmarkCommands` and `CreateQuitCommands`
 * append a fixed list of commands to the command queue; the lists are the functions
 * `BenchmarkOrders` and `QUIT_ORDERS`.
 */
module Benchmark {
  import opened Common
  import opened AppState
  import opened Rf2Connect
  import opened Rf2Command

  /** The class-level id counter of `BenchmarkRun`. */
  class RunIds {
    var idCounter: nat

    constructor ()
      ensures idCounter == 0
    {
      idCounter := 0;
    }
  }

  class BenchmarkRun {
    const id: nat
    var name: string

    /** Each new run takes the next id, so ids grow strictly in creation order. */
    constructor (ids: RunIds, name: string)
      modifies ids
      ensures id == old(ids.idCounter) + 1 && ids.idCounter == id
      ensures this.name == name
    {
      ids.idCounter := ids.idCounter + 1;
      id := ids.idCounter;
      this.name := name;
    }
  }

  /** The ids of a list of runs, in order. */
  function Ids(q: seq<BenchmarkRun>): (r: seq<nat>)
    ensures |r| == |q| && forall i :: 0 <= i < |q| ==> r[i] == q[i].id
  {
    seq(|q|, i requires 0 <= i < |q| => q[i].id)
  }

  /** Position of the first run with id `id`, or -1. */
  function FirstWithId(ids: seq<nat>, id: nat): (i: int)
    ensures -1 <= i < |ids|
    ensures i >= 0 ==> ids[i] == id && forall j :: 0 <= j < i ==> ids[j] != id
    ensures i == -1 <==> id !in ids
    decreases |ids|
  {
    if ids == [] then -1
    else if ids[0] == id then 0
    else
      var k := FirstWithId(ids[1..], id);
      if k == -1 then -1 else k + 1
  }

  /** The queue without its entry at `i`. */
  function Without<T>(q: seq<T>, i: nat): (r: seq<T>)
    requires i < |q|
    ensures |r| == |q| - 1
    ensures forall j :: 0 <= j < i ==> r[j] == q[j]
    ensures forall j :: i <= j < |r| ==> r[j] == q[j + 1]
  {
    q[..i] + q[i + 1..]
  }

  /**
   * Removing by id takes out exactly one occurrence of that id and leaves every other id: the
   * multiset of ids loses one `id`.
   */
  lemma {:induction false} WithoutFirstId(ids: seq<nat>, id: nat)
    requires id in ids
    ensures FirstWithId(ids, id) >= 0
    ensures multiset(Without(ids, FirstWithId(ids, id))) == multiset(ids) - multiset{id}
  {
    var i := FirstWithId(ids, id);
    assert ids == ids[..i] + [ids[i]] + ids[i + 1..];
    assert Without(ids, i) == ids[..i] + ids[i + 1..];
  }

  class BenchmarkQueue {
    var queue: seq<BenchmarkRun>

    constructor ()
      ensures queue == []
    {
      queue := [];
    }

    predicate IsEmpty()
      reads this
    {
      |queue| == 0
    }

    method Append(run: BenchmarkRun)
      modifies this
      ensures queue == old(queue) + [run]
    {
      queue := queue + [run];
    }

    /** `remove`: drop the first run with the id and report whether there was one. */
    method Remove(entryId: nat) returns (removed: bool)
      modifies this
      ensures removed <==> entryId in Ids(old(queue))
      ensures removed ==> queue == Without(old(queue), FirstWithId(Ids(old(queue)), entryId))
      ensures !removed ==> queue == old(queue)
    {
      var i := 0;
      while i < |queue|
        invariant 0 <= i <= |queue|
        invariant forall j :: 0 <= j < i ==> queue[j].id != entryId
      {
        if queue[i].id == entryId {
          assert FirstWithId(Ids(queue), entryId) == i by {
            FirstWithIdAt(Ids(queue), entryId, i);
          }
          queue := queue[..i] + queue[i + 1..];
          return true;
        }
        i := i + 1;
      }
      assert forall j :: 0 <= j < |Ids(queue)| ==> Ids(queue)[j] != entryId;
      return false;
    }

    /** `next`: pop the head and name it after the current time stamp, or nothing when empty. */
    method Next(stamp: string) returns (run: BenchmarkRun?)
      modifies this, (if queue != [] then {queue[0]} else {})
      ensures old(queue) == [] ==> run == null && queue == []
      ensures old(queue) != [] ==> run == old(queue[0]) && queue == old(queue[1..])
                                   && run.name == stamp + "_rF2_benchmark"
    {
      if !IsEmpty() {
        run := queue[0];
        queue := queue[1..];
        run.name := stamp + "_rF2_benchmark";
        return;
      }
      run := null;
    }

    method Reset()
      modifies this
      ensures queue == []
    {
      queue := [];
    }
  }

  /** The first matching position is found by scanning up to it. */
  lemma FirstWithIdAt(ids: seq<nat>, id: nat, i: nat)
    requires i < |ids| && ids[i] == id
    requires forall j :: 0 <= j < i ==> ids[j] != id
    ensures FirstWithId(ids, id) == i
  {
  }

  // ---------------------------------------------------------------------------------------------
  // Command sequences
  // ---------------------------------------------------------------------------------------------

  const WAIT_READY := Int(StateCode(Ready))
  const WAIT_LOADING := Int(StateCode(Loading))

  /** A race is set up from the session and content selection and started. */
  function RaceSetup(session: seq<(string, int)>, content: map<string, string>, replay: Option<string>): seq<Order> {
    if replay.None? then
      [Order(SetSessionSettings, SessionDict(session), 10.0), Order(SetContent, ContentDict(content), 10.0),
       Order(StartRace, NoData, 10.0)]
    else []
  }

  function ReplayLoad(replay: Option<string>): seq<Order> {
    if replay.Some? then [Order(PlayReplay, Text(replay.value), 30.0)] else []
  }

  const LOAD_WAITS := [Order(WaitForState, WAIT_LOADING, 90.0), Order(WaitForState, WAIT_READY, 800.0)]

  /** A replay goes full screen; a race is driven briefly and handed to the AI. */
  function Follow(replay: Option<string>): seq<Order> {
    if replay.Some? then [Order(NavAction, Text("NAV_TO_FULL_EVENT_MONITOR"), 30.0)]
    else [Order(Drive, NoData, 10.0), Order(TimeoutCommand, Int(2), 10.0), Order(AiTakeControl, NoData, 10.0)]
  }

  function Recording(recordingTimeout: int): seq<Order> {
    [Order(TimeoutCommand, Int(recordingTimeout), 12.0), Order(RecordBenchmark, NoData, 20.0)]
  }

  /**
   * The commands of one benchmark, given the session and content selection at the time of the
   * call: a race started from the selection, or a replay, then the recording.
   */
  function BenchmarkOrders(session: seq<(string, int)>, content: map<string, string>,
                           recordingTimeout: int, replay: Option<string>): seq<Order>
  {
    [Order(WaitForState, WAIT_READY, 120.0)] + RaceSetup(session, content, replay) + ReplayLoad(replay)
    + LOAD_WAITS + Follow(replay) + Recording(recordingTimeout)
  }

  /**
   * Both kinds of benchmark wait for the menu first and end by waiting the recording time and
   * recording; only a race sets session and content (the selection of the call), only a replay
   * plays one, and a recording is requested exactly once.
   */
  lemma BenchmarkOrdersShape(session: seq<(string, int)>, content: map<string, string>,
                             recordingTimeout: int, replay: Option<string>)
    ensures var r := BenchmarkOrders(session, content, recordingTimeout, replay);
      && |r| == (if replay.None? then 11 else 7)
      && r[0] == Order(WaitForState, WAIT_READY, 120.0)
      && r[|r| - 2] == Order(TimeoutCommand, Int(recordingTimeout), 12.0)
      && r[|r| - 1] == Order(RecordBenchmark, NoData, 20.0)
      && (replay.None? ==> r[1].data == SessionDict(session) && r[2].data == ContentDict(content))
      && (forall i :: 0 <= i < |r| && r[i].kind == PlayReplay ==> replay.Some? && r[i].data == Text(replay.value))
      && (forall i :: 0 <= i < |r| && r[i].kind == SetSessionSettings ==> replay.None?)
      && (forall i, j :: 0 <= i < |r| && 0 <= j < |r| && r[i].kind == RecordBenchmark && r[j].kind == RecordBenchmark ==> i == j)
  {
    var r := BenchmarkOrders(session, content, recordingTimeout, replay);
    if replay.None? {
      RaceKinds(session, content, recordingTimeout);
    } else {
      ReplayKinds(session, content, recordingTimeout, replay.value);
    }
    OnlyLastRecords(r);
  }

  /** A race benchmark plays no replay and records only last. */
  lemma RaceKinds(session: seq<(string, int)>, content: map<string, string>, recordingTimeout: int)
    ensures var r := BenchmarkOrders(session, content, recordingTimeout, None);
            && |r| == 11 && r[1].data == SessionDict(session) && r[2].data == ContentDict(content)
            && r[0] == Order(WaitForState, WAIT_READY, 120.0)
            && r[9] == Order(TimeoutCommand, Int(recordingTimeout), 12.0) && r[10] == Order(RecordBenchmark, NoData, 20.0)
            && (forall i :: 0 <= i < |r| ==> r[i].kind != PlayReplay)
            && (forall i :: 0 <= i < |r| - 1 ==> r[i].kind != RecordBenchmark)
  {
    RaceOrders(session, content, recordingTimeout);
  }

  /** A replay benchmark plays the replay, sets no session and records only last. */
  lemma ReplayKinds(session: seq<(string, int)>, content: map<string, string>, recordingTimeout: int, name: string)
    ensures var r := BenchmarkOrders(session, content, recordingTimeout, Some(name));
            && |r| == 7 && r[0] == Order(WaitForState, WAIT_READY, 120.0)
            && r[5] == Order(TimeoutCommand, Int(recordingTimeout), 12.0) && r[6] == Order(RecordBenchmark, NoData, 20.0)
            && (forall i :: 0 <= i < |r| && r[i].kind == PlayReplay ==> r[i].data == Text(name))
            && (forall i :: 0 <= i < |r| ==> r[i].kind != SetSessionSettings)
            && (forall i :: 0 <= i < |r| - 1 ==> r[i].kind != RecordBenchmark)
  {
    ReplayOrders(session, content, recordingTimeout, name);
  }

  /** A recording requested only by the last command is requested once. */
  lemma OnlyLastRecords(r: seq<Order>)
    requires r != [] && forall i :: 0 <= i < |r| - 1 ==> r[i].kind != RecordBenchmark
    ensures forall i, j :: 0 <= i < |r| && 0 <= j < |r| && r[i].kind == RecordBenchmark && r[j].kind == RecordBenchmark ==> i == j
  {
  }

  /** The eleven commands of a race benchmark. */
  lemma RaceOrders(session: seq<(string, int)>, content: map<string, string>, recordingTimeout: int)
    ensures BenchmarkOrders(session, content, recordingTimeout, None)
            == [Order(WaitForState, WAIT_READY, 120.0), Order(SetSessionSettings, SessionDict(session), 10.0),
                Order(SetContent, ContentDict(content), 10.0), Order(StartRace, NoData, 10.0),
                Order(WaitForState, WAIT_LOADING, 90.0), Order(WaitForState, WAIT_READY, 800.0),
                Order(Drive, NoData, 10.0), Order(TimeoutCommand, Int(2), 10.0), Order(AiTakeControl, NoData, 10.0),
                Order(TimeoutCommand, Int(recordingTimeout), 12.0), Order(RecordBenchmark, NoData, 20.0)]
  {
  }

  /** The seven commands of a replay benchmark. */
  lemma ReplayOrders(session: seq<(string, int)>, content: map<string, string>, recordingTimeout: int, name: string)
    ensures BenchmarkOrders(session, content, recordingTimeout, Some(name))
            == [Order(WaitForState, WAIT_READY, 120.0), Order(PlayReplay, Text(name), 30.0),
                Order(WaitForState, WAIT_LOADING, 90.0), Order(WaitForState, WAIT_READY, 800.0),
                Order(NavAction, Text("NAV_TO_FULL_EVENT_MONITOR"), 30.0),
                Order(TimeoutCommand, Int(recordingTimeout), 12.0), Order(RecordBenchmark, NoData, 20.0)]
  {
  }

  method AppendRaceSetup(q: CommandQueue, session: seq<(string, int)>, content: map<string, string>,
                         replay: Option<string>, now: real)
    modifies q`queue
    ensures Orders(q.queue) == Orders(old(q.queue)) + RaceSetup(session, content, replay)
  {
    if replay.None? {
      q.AppendNew(SetSessionSettings, SessionDict(session), Some(10.0), now);
      q.AppendNew(SetContent, ContentDict(content), Some(10.0), now);
      q.AppendNew(StartRace, NoData, Some(10.0), now);
    }
  }

  method AppendReplayLoad(q: CommandQueue, replay: Option<string>, now: real)
    modifies q`queue
    ensures Orders(q.queue) == Orders(old(q.queue)) + ReplayLoad(replay)
  {
    if replay.Some? {
      q.AppendNew(PlayReplay, Text(replay.value), Some(30.0), now);
    }
  }

  method AppendLoadWaits(q: CommandQueue, now: real)
    modifies q`queue
    ensures Orders(q.queue) == Orders(old(q.queue)) + LOAD_WAITS
  {
    q.AppendNew(WaitForState, WAIT_LOADING, Some(90.0), now);
    q.AppendNew(WaitForState, WAIT_READY, Some(800.0), now);
  }

  method AppendFollow(q: CommandQueue, replay: Option<string>, now: real)
    modifies q`queue
    ensures Orders(q.queue) == Orders(old(q.queue)) + Follow(replay)
  {
    if replay.Some? {
      q.AppendNew(NavAction, Text("NAV_TO_FULL_EVENT_MONITOR"), Some(30.0), now);
    } else {
      q.AppendNew(Drive, NoData, Some(10.0), now);
      q.AppendNew(TimeoutCommand, Int(2), Some(10.0), now);
      q.AppendNew(AiTakeControl, NoData, Some(10.0), now);
    }
  }

  method AppendRecording(q: CommandQueue, recordingTimeout: int, now: real)
    modifies q`queue
    ensures Orders(q.queue) == Orders(old(q.queue)) + Recording(recordingTimeout)
  {
    q.AppendNew(TimeoutCommand, Int(recordingTimeout), Some(12.0), now);
    q.AppendNew(RecordBenchmark, NoData, Some(20.0), now);
  }

  /** `create_benchmark_commands`: append the benchmark's commands and clear the selection. */
  method CreateBenchmarkCommands(q: CommandQueue, settings: Settings, recordingTimeout: int,
                                 replay: Option<string>, now: real)
    modifies q`queue, settings`sessionSelection, settings`contentSelected
    ensures Orders(q.queue) == Orders(old(q.queue))
              + BenchmarkOrders(old(settings.sessionSelection), old(settings.contentSelected), recordingTimeout, replay)
    ensures settings.sessionSelection == [] && settings.contentSelected == map[]
  {
    BenchmarkOrdersAppended(Orders(q.queue), settings.sessionSelection, settings.contentSelected, recordingTimeout, replay);
    q.AppendNew(WaitForState, WAIT_READY, Some(120.0), now);
    AppendRaceSetup(q, settings.sessionSelection, settings.contentSelected, replay, now);
    settings.sessionSelection := [];
    settings.contentSelected := map[];
    AppendReplayLoad(q, replay, now);
    AppendLoadWaits(q, now);
    AppendFollow(q, replay, now);
    AppendRecording(q, recordingTimeout, now);
  }

  /** Appending a benchmark's commands is appending its parts one after another. */
  lemma BenchmarkOrdersAppended(start: seq<Order>, session: seq<(string, int)>, content: map<string, string>,
                                recordingTimeout: int, replay: Option<string>)
    ensures start + BenchmarkOrders(session, content, recordingTimeout, replay)
            == start + [Order(WaitForState, WAIT_READY, 120.0)] + RaceSetup(session, content, replay) + ReplayLoad(replay)
               + LOAD_WAITS + Follow(replay) + Recording(recordingTimeout)
  {
  }

  /** `create_quit_commands`: leave the session by keyboard, return to the race menu and quit. */
  const QUIT_ORDERS: seq<Order> :=
    [Order(PressKey, Text("DIK_ESCAPE"), DEFAULT_TIMEOUT), Order(PressAltKey, Text("DIK_F4"), DEFAULT_TIMEOUT),
     Order(ToRaceMenu, NoData, 10.0), Order(Quit, NoData, 5.0)]

  method CreateQuitCommands(q: CommandQueue, now: real)
    modifies q`queue
    ensures Orders(q.queue) == Orders(old(q.queue)) + QUIT_ORDERS
  {
    q.AppendNew(PressKey, Text("DIK_ESCAPE"), None, now);
    q.AppendNew(PressAltKey, Text("DIK_F4"), None, now);
    q.AppendNew(ToRaceMenu, NoData, Some(10.0), now);
    q.AppendNew(Quit, NoData, Some(5.0), now);
  }
}
