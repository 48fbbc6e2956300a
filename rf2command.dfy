/**
 * Commands sent to the running game and the queue that executes them one per tick.
 *
 * A `Command` is an object whose `finished` and `resetQueue` flags its handler sets; what one
 * execution does is specified by the pure function `Handle`, which returns an `Outcome`: the flags
 * it raises, the last status text it publishes, the other signals it sets and the log of requests,
 * key presses and sounds it causes.  Replies of the game's web UI are inputs (`Remote`).
 * `CommandQueue` is the FIFO with its current command and the time of the last execution.
 */
module Rf2Command {
  import opened Common
  import opened AppState
  import opened Rf2Connect

  // ---------------------------------------------------------------------------------------------
  // Command kinds and payloads
  // ---------------------------------------------------------------------------------------------

  datatype Kind =
    | WaitForState | PlayReplay | NavAction | Quit | GetContent | SetContent | StartRace | Drive
    | PressKey | PressShiftKey | PressCtrlKey | PressAltKey | TimeoutCommand | RecordBenchmark
    | SetSessionSettings | ReplayPlayback | ReplayTime | ReplayFocus | AiTakeControl | ToRaceMenu

  function KindCode(k: Kind): int {
    match k
    case WaitForState => 0
    case PlayReplay => 1
    case NavAction => 2
    case Quit => 3
    case GetContent => 4
    case SetContent => 5
    case StartRace => 6
    case Drive => 7
    case PressKey => 8
    case PressShiftKey => 9
    case PressCtrlKey => 10
    case PressAltKey => 11
    case TimeoutCommand => 12
    case RecordBenchmark => 13
    case SetSessionSettings => 14
    case ReplayPlayback => 15
    case ReplayTime => 16
    case ReplayFocus => 17
    case AiTakeControl => 18
    case ToRaceMenu => 19
  }

  /**
   * The handler lookup by command number: codes 0 to 19 name a kind; any other number has no
   * handler (the source's attribute lookup fails when the command is created).
   */
  function KindFromCode(n: int): (r: Option<Kind>)
    ensures r.Some? <==> 0 <= n < 20
    ensures r.Some? ==> KindCode(r.value) == n
  {
    if n == 0 then Some(WaitForState) else if n == 1 then Some(PlayReplay)
    else if n == 2 then Some(NavAction) else if n == 3 then Some(Quit)
    else if n == 4 then Some(GetContent) else if n == 5 then Some(SetContent)
    else if n == 6 then Some(StartRace) else if n == 7 then Some(Drive)
    else if n == 8 then Some(PressKey) else if n == 9 then Some(PressShiftKey)
    else if n == 10 then Some(PressCtrlKey) else if n == 11 then Some(PressAltKey)
    else if n == 12 then Some(TimeoutCommand) else if n == 13 then Some(RecordBenchmark)
    else if n == 14 then Some(SetSessionSettings) else if n == 15 then Some(ReplayPlayback)
    else if n == 16 then Some(ReplayTime) else if n == 17 then Some(ReplayFocus)
    else if n == 18 then Some(AiTakeControl) else if n == 19 then Some(ToRaceMenu)
    else None
  }

  /**
   * The `data` of a command.  A float carries the text Python prints for it, since float
   * formatting is not modelled; a session-settings dict is an ordered list of key/target pairs.
   */
  datatype Data =
    | NoData
    | Int(i: int)
    | Num(value: real, text: string)
    | Text(s: string)
    | SessionDict(entries: seq<(string, int)>)
    | ContentDict(content: map<string, string>)

  /** Python truthiness of a payload. */
  predicate Truthy(d: Data) {
    match d
    case NoData => false
    case Int(i) => i != 0
    case Num(v, _) => v != 0.0
    case Text(s) => s != ""
    case SessionDict(e) => e != []
    case ContentDict(m) => m != map[]
  }

  /** The payload as an int when Python's `==` would equate it with one. */
  function DataAsInt(d: Data): Option<int> {
    match d
    case Int(i) => Some(i)
    case Num(v, _) => if v == v.Floor as real then Some(v.Floor) else None
    case _ => None
  }

  /** The payload as a number of seconds, when it is an int or a float. */
  function Seconds(d: Data): Option<real> {
    match d
    case Int(i) => Some(i as real)
    case Num(v, _) => Some(v)
    case _ => None
  }

  /** The payload inside an f-string; dicts are not rendered as Python would. */
  function Show(d: Data): string {
    match d
    case NoData => "None"
    case Int(i) => IntToString(i)
    case Num(_, text) => text
    case Text(s) => s
    case SessionDict(_) => "{...}"
    case ContentDict(_) => "{...}"
  }

  /** `RfactorState.names.get(data)` inside an f-string: only 0, 1 and 2 have names. */
  function StateLabel(d: Data): (r: string)
    ensures DataAsInt(d) == Some(0) ==> r == StateName(Unavailable)
    ensures DataAsInt(d) == Some(1) ==> r == StateName(Loading)
    ensures DataAsInt(d) == Some(2) ==> r == StateName(Ready)
    ensures DataAsInt(d) !in {Some(0), Some(1), Some(2)} ==> r == "None"
  {
    match DataAsInt(d)
    case Some(n) => if n == 0 then "Unavailable" else if n == 1 then "Loading" else if n == 2 then "Ready" else "None"
    case None => "None"
  }

  /** A waited-for state shows under the state's own name. */
  lemma StateLabelOfState(s: RfactorState)
    ensures StateLabel(Int(StateCode(s))) == StateName(s)
  {
  }

  // ---------------------------------------------------------------------------------------------
  // The web UI as seen by the handlers
  // ---------------------------------------------------------------------------------------------

  /** A reply of the web UI: none at all, or a status code with a decoded JSON body. */
  datatype Reply<T> = NoReply | Reply(status: int, body: T)

  /** `_check_request`: a reply arrived with a 2xx status from 200 to 204. */
  predicate CheckRequest<T>(r: Reply<T>) {
    r.Reply? && 200 <= r.status <= 204
  }

  /** The k-th POST of one execution gets the k-th scripted reply, and no reply after the last. */
  function ReplyAt<T>(replies: seq<Reply<T>>, k: nat): Reply<T> {
    if k < |replies| then replies[k] else NoReply
  }

  /** A replay of the replay list (`replayName` defaults to "", `id` to 0). */
  datatype ReplayInfo = ReplayInfo(name: string, id: int)

  /** An entry of the standings list (`driverName` may be missing, `slotID` defaults to -1). */
  datatype Standing = Standing(driverName: Option<string>, slotId: int)

  /**
   * Everything a handler learns from outside during one execution: the session settings read by
   * GET (current value per setting, settings without one are absent), the replies to its POSTs in
   * order (the body is the reported `currentValue`), the replay list, the result of the quit request
   * and the standings read by GET.
   */
  datatype Remote = Remote(
    sessions: Reply<map<string, int>>,
    posts: seq<Reply<Option<int>>>,
    replays: seq<ReplayInfo>,
    quitResult: bool,
    standings: Reply<seq<Standing>>)

  datatype Sound = Switch | Confirm | Ping

  /** What a handler does to the outside world, in order. */
  datatype Effect =
    | Post(url: string)
    | PostSetting(key: string, value: int)
    | Put(url: string)
    | KeyTap(key: string)
    | KeyDown(key: string)
    | KeyUp(key: string)
    | PlaySound(sound: Sound)
    | Sleep(seconds: real)
    | RequestQuit
    | PlayReplayRequest(id: int)
    | ReplayPlaybackRequest(command: Data)
    | ReplayTimeRequest(time: Data)
    | SaveSettings

  const NAV_ACTION_URL := "/navigation/action/"
  const NAV_TO_MAIN_MENU := "NAV_TO_MAIN_MENU"
  const START_RACE_URL := "/rest/race/startRace"
  const DRIVE_URL := "/rest/garage/drive"
  const FOCUS_URL := "/rest/watch/focus/"
  const AI_CONTROL_URL := "/rest/sessions/ai/TakeDriverControl"
  const RACE_MENU_URL := "/rest/garage/toRaceMenu"
  const SERIES_URL := "/rest/race/series"
  /** Attempts per unit step of a session setting. */
  const MAX_ATTEMPTS: nat := 3
  /** Timeout of a command created without one (or with 0), in seconds. */
  const DEFAULT_TIMEOUT: real := 480.0

  /** `CommandUrls.set_series_args`: the series request for a game version. */
  datatype SeriesRequest = SeriesRequest(url: string, data: Option<string>)

  function SeriesArgs(lastVersion: string, seriesId: string): (r: SeriesRequest)
    ensures !LexLess(lastVersion, "1.1125") ==> r.url == SERIES_URL + "?signature=" + seriesId && r.data == None
    ensures LexLess(lastVersion, "1.1125") ==> r.url == SERIES_URL && r.data == Some(seriesId)
  {
    if !LexLess(lastVersion, "1.1125") then SeriesRequest(SERIES_URL + "?signature=" + seriesId, None)
    else SeriesRequest(SERIES_URL, Some(seriesId))
  }

  /** The version test is a string comparison: "1.2" counts as newer, "1.1000" as older. */
  lemma SeriesArgsByVersion(id: string)
    ensures SeriesArgs("1.1125", id).data == None
    ensures SeriesArgs("1.2", id).data == None
    ensures SeriesArgs("1.1000", id).data == Some(id)
    ensures SeriesArgs("", id).data == Some(id)
  {
    assert !LexLess("1.1125", "1.1125") by { LexLessAsymmetric("1.1125", "1.1125"); }
    assert LexLess("1.1000", "1.1125") by {
      assert "1.1000"[1..] == ".1000" && "1.1125"[1..] == ".1125";
      assert ".1000"[1..] == "1000" && ".1125"[1..] == "1125";
      assert "1000"[1..] == "000" && "1125"[1..] == "125";
    }
  }

  // ---------------------------------------------------------------------------------------------
  // Timeouts
  // ---------------------------------------------------------------------------------------------

  /** `timeout or default_timeout`: None and 0 fall back to 480 s. */
  function EffectiveTimeout(t: Option<real>): (r: real)
    ensures t.None? || t.value == 0.0 ==> r == DEFAULT_TIMEOUT
    ensures t.Some? && t.value != 0.0 ==> r == t.value
  {
    if t.None? || t.value == 0.0 then DEFAULT_TIMEOUT else t.value
  }

  /** `timed_out`: strictly more than `timeout` seconds since activation. */
  predicate TimedOutAt(created: real, timeout: real, now: real) {
    now - created > timeout
  }

  /** A command is never timed out at its own activation time, and once timed out it stays so. */
  lemma TimedOutMonotone(created: real, timeout: real, t1: real, t2: real)
    requires timeout >= 0.0
    ensures !TimedOutAt(created, timeout, created)
    ensures !TimedOutAt(created, timeout, created + timeout)
    ensures TimedOutAt(created, timeout, t1) && t1 <= t2 ==> TimedOutAt(created, timeout, t2)
  {
  }

  // ---------------------------------------------------------------------------------------------
  // What one execution of a handler does
  // ---------------------------------------------------------------------------------------------

  /**
   * The result of one handler run: whether it finished or asked for a queue reset, the last status
   * text it published (if any), whether it raised the live flag, the quit result it published,
   * whether it requested a benchmark recording, whether it flagged a replay as playing, and the
   * effects it caused.
   */
  datatype Outcome = Outcome(
    finished: bool,
    resetQueue: bool,
    status: Option<string>,
    live: bool,
    quitResult: Option<bool>,
    recordBenchmark: bool,
    replayPlaying: bool,
    effects: seq<Effect>)

  /**
   * The events and the settings once the outcome `o` is applied to the values they had before: a
   * status the handler shows replaces the old one, the flags it raises are set, a quit result it
   * gives is stored, and everything else keeps its old value.
   */
  predicate Applied(o: Outcome, status0: string, live0: bool, quit0: Option<bool>, record0: bool, replay0: bool,
                    events: Events, settings: Settings)
    reads events, settings
  {
    && events.status == o.status.GetOr(status0)
    && events.live == (o.live || live0)
    && events.quitResult == (if o.quitResult.Some? then o.quitResult else quit0)
    && events.recordBenchmark == (o.recordBenchmark || record0)
    && settings.replayPlaying == (o.replayPlaying || replay0)
  }

  /** A handler that does nothing and does not finish (it runs again on the next tick). */
  const Idle := Outcome(false, false, None, false, None, false, false, [])
  /** A handler that only finishes. */
  const Done := Idle.(finished := true)

  /** The navigation target as shown in the status line: `data[4:]` without a leading "TO_". */
  function NavMessage(action: string): (r: string)
    ensures |action| <= 4 ==> r == ""
    ensures |action| > 4 && !StartsWith(action[4..], "TO_") ==> r == action[4..]
    ensures |action| > 4 && StartsWith(action[4..], "TO_") ==> r == action[7..]
  {
    var m := if |action| <= 4 then "" else action[4..];
    if StartsWith(m, "TO_") then m[3..] else m
  }

  /** The index of the first replay whose name equals the payload, or -1. */
  function FirstReplay(replays: seq<ReplayInfo>, data: Data): (i: int)
    ensures -1 <= i < |replays|
    ensures i >= 0 ==> data.Text? && replays[i].name == data.s
    ensures forall j :: 0 <= j < |replays| && (i < 0 || j < i) ==> !(data.Text? && replays[j].name == data.s)
    decreases |replays|
  {
    if replays == [] then -1
    else if data.Text? && replays[0].name == data.s then 0
    else
      var k := FirstReplay(replays[1..], data);
      if k < 0 then -1 else k + 1
  }

  /** `driverName == data` in Python: a missing name equals a missing payload. */
  predicate DriverMatches(s: Standing, data: Data) {
    (s.driverName.None? && data.NoData?) || (s.driverName.Some? && data.Text? && s.driverName.value == data.s)
  }

  /** The slot of the first standing entry whose driver matches, or -1. */
  function FocusSlot(standings: seq<Standing>, data: Data): (slot: int)
    ensures (forall j :: 0 <= j < |standings| ==> !DriverMatches(standings[j], data)) ==> slot == -1
    ensures slot != -1 ==> exists j :: 0 <= j < |standings| && DriverMatches(standings[j], data) && standings[j].slotId == slot
    ensures forall j :: 0 <= j < |standings| && DriverMatches(standings[j], data) && NoDriverBefore(standings, data, j) ==>
              slot == standings[j].slotId
    decreases |standings|
  {
    if standings == [] then -1
    else if DriverMatches(standings[0], data) then standings[0].slotId
    else
      var r := FocusSlot(standings[1..], data);
      assert forall j :: 1 <= j < |standings| && NoDriverBefore(standings, data, j) ==> NoDriverBefore(standings[1..], data, j - 1);
      r
  }

  /** No standing entry before index `j` has a matching driver. */
  predicate NoDriverBefore(standings: seq<Standing>, data: Data, j: int)
    requires 0 <= j <= |standings|
  {
    forall k :: 0 <= k < j ==> !DriverMatches(standings[k], data)
  }

  /** `play_replay_method`. */
  function ReplayOutcome(data: Data, replays: seq<ReplayInfo>): Outcome {
    if !Truthy(data) then Idle
    else
      var i := FirstReplay(replays, data);
      var played := if i >= 0 then [PlayReplayRequest(replays[i].id)] else [];
      var base := Idle.(replayPlaying := true, effects := played + [SaveSettings]);
      if i < 0 then base.(resetQueue := true, status := Some("Could not find Replay: " + Show(data)))
      else base.(finished := true, live := true, status := Some("Loading Replay " + Show(data)))
  }

  /** The three press-with-modifier handlers. */
  function ModifiedKey(data: Data, side: string, modifier: string): Outcome {
    if Truthy(data) then
      Done.(status := Some("Sending key + left " + side + ": " + Show(data)),
            effects := [KeyDown(modifier), KeyTap(Show(data)), KeyUp(modifier)])
    else Done
  }

  /** `replay_focus_method`. */
  function FocusOutcome(data: Data, standings: Reply<seq<Standing>>): Outcome {
    if !CheckRequest(standings) then Done
    else
      var slot := FocusSlot(standings.body, data);
      if slot == -1 then Done else Done.(effects := [Put(FOCUS_URL + IntToString(slot))])
  }

  // ---------------------------------------------------------------------------------------------
  // set_session_settings
  // ---------------------------------------------------------------------------------------------

  /**
   * Up to `retries` POST attempts, the first using reply `k`: the index of the next unused reply
   * and the body of the first reply that passed the check (None when every attempt failed).
   */
  function Attempts(replies: seq<Reply<Option<int>>>, k: nat, retries: nat): (r: (nat, Option<Option<int>>))
    ensures k <= r.0 <= k + retries
    ensures r.1.None? ==> r.0 == k + retries
    ensures r.1.None? ==> forall j :: k <= j < k + retries ==> !CheckRequest(ReplyAt(replies, j))
    ensures r.1.Some? ==> k < r.0 && CheckRequest(ReplyAt(replies, r.0 - 1))
    ensures r.1.Some? ==> r.1.value == ReplyAt(replies, r.0 - 1).body
    ensures forall j :: k <= j < r.0 - 1 ==> !CheckRequest(ReplyAt(replies, j))
    decreases retries
  {
    if retries == 0 then (k, None)
    else if CheckRequest(ReplyAt(replies, k)) then (k + 1, Some(ReplyAt(replies, k).body))
    else
      var r := Attempts(replies, k + 1, retries - 1);
      (r.0, r.1)
  }

  /** The step loop stops once the reported value prints like the target. */
  predicate ReachedTarget(result: Option<Option<int>>, target: int) {
    result.Some? && result.value.Some? && IntToString(result.value.value) == IntToString(target)
  }

  /** Comparing the printed values is comparing the values. */
  lemma ReachedTargetMeans(result: Option<Option<int>>, target: int)
    ensures ReachedTarget(result, target) <==> result == Some(Some(target))
  {
    if result.Some? && result.value.Some? {
      IntToStringInjective(result.value.value, target);
    }
  }

  /**
   * `n` unit steps of one setting in one direction, starting with reply `k`: the POSTs sent and the
   * index of the next unused reply.
   */
  function Steps(key: string, direction: int, target: int, replies: seq<Reply<Option<int>>>, k: nat, n: nat)
    : (r: (seq<Effect>, nat))
    ensures r.1 >= k && |r.0| == r.1 - k
    ensures |r.0| <= MAX_ATTEMPTS * n
    ensures forall i :: 0 <= i < |r.0| ==> r.0[i] == PostSetting(key, direction)
    decreases n
  {
    if n == 0 then ([], k)
    else
      var a := Attempts(replies, k, MAX_ATTEMPTS);
      var sent := Repeat(PostSetting(key, direction), a.0 - k);
      if ReachedTarget(a.1, target) then (sent, a.0)
      else
        var rest := Steps(key, direction, target, replies, a.0, n - 1);
        (sent + rest.0, rest.1)
  }

  /** One unit step of `Steps`: its attempts, then the remaining steps unless the target was reported. */
  lemma StepsUnfold(key: string, direction: int, target: int, replies: seq<Reply<Option<int>>>, k: nat, n: nat)
    requires n > 0
    ensures var a := Attempts(replies, k, MAX_ATTEMPTS);
            var sent := Repeat(PostSetting(key, direction), a.0 - k);
            var rest := Steps(key, direction, target, replies, a.0, n - 1);
            Steps(key, direction, target, replies, k, n)
            == if ReachedTarget(a.1, target) then (sent, a.0) else (sent + rest.0, rest.1)
  {
  }

  function Abs(x: int): nat {
    if x < 0 then -x else x
  }

  /** The direction sent for a setting: 1 to increase, 0 to decrease. */
  function Direction(target: int, current: int): int {
    if target - current > 0 then 1 else 0
  }

  /** The distance a setting has to travel, 0 for a skipped one. */
  function Gap(key: string, target: int, current: map<string, int>): nat {
    if key in current && current[key] != target then Abs(target - current[key]) else 0
  }

  function TotalGap(entries: seq<(string, int)>, current: map<string, int>): nat
    decreases |entries|
  {
    if entries == [] then 0 else Gap(entries[0].0, entries[0].1, current) + TotalGap(entries[1..], current)
  }

  /** One setting: skipped when it has no current value or is already at its target. */
  function KeySteps(key: string, target: int, current: map<string, int>, replies: seq<Reply<Option<int>>>, k: nat)
    : (r: (seq<Effect>, nat))
    ensures r.1 >= k && |r.0| == r.1 - k
    ensures |r.0| <= MAX_ATTEMPTS * Gap(key, target, current)
  {
    if key in current && current[key] != target
    then Steps(key, Direction(target, current[key]), target, replies, k, Abs(target - current[key]))
    else ([], k)
  }

  /**
   * The loop over the settings from position `i` on, starting with reply `k`: settings without a
   * current value or already at their target are skipped; the others step toward the target.
   */
  function SessionKeys(entries: seq<(string, int)>, i: nat, current: map<string, int>,
                       replies: seq<Reply<Option<int>>>, k: nat): (r: (seq<Effect>, nat))
    requires i <= |entries|
    ensures r.1 >= k && |r.0| == r.1 - k
    decreases |entries| - i
  {
    if i == |entries| then ([], k)
    else
      var here := KeySteps(entries[i].0, entries[i].1, current, replies, k);
      var rest := SessionKeys(entries, i + 1, current, replies, here.1);
      (here.0 + rest.0, rest.1)
  }

  /** At most three POSTs per unit of distance, over all settings from position `i` on. */
  lemma {:induction false} SessionKeysBound(entries: seq<(string, int)>, i: nat, current: map<string, int>,
                                            replies: seq<Reply<Option<int>>>, k: nat)
    requires i <= |entries|
    ensures |SessionKeys(entries, i, current, replies, k).0| <= MAX_ATTEMPTS * TotalGap(entries[i..], current)
    decreases |entries| - i
  {
    if i < |entries| {
      var here := KeySteps(entries[i].0, entries[i].1, current, replies, k);
      SessionKeysBound(entries, i + 1, current, replies, here.1);
      assert entries[i..][1..] == entries[i + 1..];
    }
  }

  /** `set_session_settings_method`. */
  function SessionOutcome(data: Data, restApi: bool, remote: Remote): Outcome {
    if !data.SessionDict? || data.entries == [] then Idle
    else if !restApi then Done
    else if !CheckRequest(remote.sessions) then Idle
    else
      Done.(effects := SessionKeys(data.entries, 0, remote.sessions.body, remote.posts, 0).0
                       + [PlaySound(Switch), Post(NAV_ACTION_URL + NAV_TO_MAIN_MENU)])
  }

  /** Every reply from `k` on passes the check and none reports the target value. */
  predicate AllSucceedShort(replies: seq<Reply<Option<int>>>, k: nat, target: int) {
    forall j :: k <= j < |replies| ==> CheckRequest(replies[j]) && replies[j].body != Some(target)
  }

  /** When every POST succeeds and the target is never reported, exactly `n` POSTs go out. */
  lemma {:induction false} StepsAllSucceed(key: string, direction: int, target: int,
                                           replies: seq<Reply<Option<int>>>, k: nat, n: nat)
    requires AllSucceedShort(replies, k, target) && k + n <= |replies|
    ensures Steps(key, direction, target, replies, k, n) == (Repeat(PostSetting(key, direction), n), k + n)
    decreases n
  {
    if n > 0 {
      assert CheckRequest(ReplyAt(replies, k)) && ReplyAt(replies, k).body != Some(target);
      var a := Attempts(replies, k, MAX_ATTEMPTS);
      assert a == (k + 1, Some(ReplyAt(replies, k).body));
      ReachedTargetMeans(a.1, target);
      StepsAllSucceed(key, direction, target, replies, k + 1, n - 1);
      var rest := Steps(key, direction, target, replies, k + 1, n - 1);
      assert Repeat(PostSetting(key, direction), 1) + rest.0 == Repeat(PostSetting(key, direction), n);
    }
  }

  /** When the first POST reports the target, the setting is done after that one POST. */
  lemma StepsStopAtTarget(key: string, direction: int, target: int,
                          replies: seq<Reply<Option<int>>>, k: nat, n: nat)
    requires n > 0 && CheckRequest(ReplyAt(replies, k)) && ReplyAt(replies, k).body == Some(target)
    ensures Steps(key, direction, target, replies, k, n) == ([PostSetting(key, direction)], k + 1)
  {
    ReachedTargetMeans(Some(Some(target)), target);
    assert Attempts(replies, k, MAX_ATTEMPTS) == (k + 1, Some(Some(target)));
    assert Repeat(PostSetting(key, direction), 1) == [PostSetting(key, direction)];
  }

  /** With no reply at all, every step makes all three attempts. */
  lemma {:induction false} StepsNoReply(key: string, direction: int, target: int,
                                        replies: seq<Reply<Option<int>>>, k: nat, n: nat)
    requires k >= |replies|
    ensures Steps(key, direction, target, replies, k, n).0 == Repeat(PostSetting(key, direction), MAX_ATTEMPTS * n)
    decreases n
  {
    if n > 0 {
      var a := Attempts(replies, k, MAX_ATTEMPTS);
      assert !CheckRequest(ReplyAt(replies, k));
      assert !CheckRequest(ReplyAt(replies, k + 1));
      assert !CheckRequest(ReplyAt(replies, k + 2));
      assert a == (k + 3, None);
      StepsNoReply(key, direction, target, replies, k + 3, n - 1);
      var rest := Steps(key, direction, target, replies, k + 3, n - 1);
      assert Repeat(PostSetting(key, direction), 3) + rest.0 == Repeat(PostSetting(key, direction), MAX_ATTEMPTS * n);
    }
  }

  /** Settings that are missing or already at their target send nothing. */
  lemma {:induction false} SkippedKeysSendNothing(entries: seq<(string, int)>, i: nat, current: map<string, int>,
                                                  replies: seq<Reply<Option<int>>>, k: nat)
    requires i <= |entries|
    requires forall j :: 0 <= j < |entries| ==> entries[j].0 !in current || current[entries[j].0] == entries[j].1
    ensures SessionKeys(entries, i, current, replies, k) == ([], k)
    decreases |entries| - i
  {
    if i < |entries| {
      assert entries[i].0 !in current || current[entries[i].0] == entries[i].1;
      SkippedKeysSendNothing(entries, i + 1, current, replies, k);
    }
  }

  /**
   * One setting that is present and off target: its POSTs all carry the setting's key and the
   * direction toward the target (1 up, 0 down), at most three per unit of distance.
   */
  lemma SingleSettingPosts(key: string, target: int, current: map<string, int>,
                           replies: seq<Reply<Option<int>>>)
    requires key in current && current[key] != target
    ensures var r := SessionKeys([(key, target)], 0, current, replies, 0).0;
      && |r| <= MAX_ATTEMPTS * Abs(target - current[key])
      && (forall i :: 0 <= i < |r| ==> r[i].PostSetting? && r[i].key == key)
      && (forall i :: 0 <= i < |r| ==> (r[i].value == 1 <==> target > current[key]))
  {
    var s := Steps(key, Direction(target, current[key]), target, replies, 0, Abs(target - current[key]));
    assert SessionKeys([(key, target)], 1, current, replies, s.1) == ([], s.1);
    assert SessionKeys([(key, target)], 0, current, replies, 0).0 == s.0 + [];
  }

  /** The worked case: from 3 to 5 with every POST answered, two increments are sent. */
  lemma SessionLengthExample()
    ensures var replies := [Reply(200, Some(4)), Reply(200, Some(5))];
      SessionKeys([("sessionLength", 5)], 0, map["sessionLength" := 3], replies, 0).0
        == [PostSetting("sessionLength", 1), PostSetting("sessionLength", 1)]
  {
    var replies: seq<Reply<Option<int>>> := [Reply(200, Some(4)), Reply(200, Some(5))];
    var first := Attempts(replies, 0, MAX_ATTEMPTS);
    assert first == (1, Some(Some(4)));
    ReachedTargetMeans(first.1, 5);
    var second := Attempts(replies, 1, MAX_ATTEMPTS);
    assert second == (2, Some(Some(5)));
    ReachedTargetMeans(second.1, 5);
    assert Repeat(PostSetting("sessionLength", 1), 1) == [PostSetting("sessionLength", 1)];
    assert Steps("sessionLength", 1, 5, replies, 1, 1) == ([PostSetting("sessionLength", 1)], 2);
    assert Steps("sessionLength", 1, 5, replies, 0, 2)
      == ([PostSetting("sessionLength", 1)] + [PostSetting("sessionLength", 1)], 2);
    assert SessionKeys([("sessionLength", 5)], 1, map["sessionLength" := 3], replies, 2) == ([], 2);
  }

  // ---------------------------------------------------------------------------------------------
  // The handler table
  // ---------------------------------------------------------------------------------------------

  /** One execution of a command of kind `kind` with payload `data` while the game is in `state`. */
  function Handle(kind: Kind, data: Data, state: RfactorState, restApi: bool, remote: Remote): Outcome {
    match kind
    case WaitForState =>
      Idle.(finished := DataAsInt(data) == Some(StateCode(state)),
            status := Some("Waiting for state: " + StateLabel(data)))
    case PlayReplay => ReplayOutcome(data, remote.replays)
    case NavAction =>
      if data.Text? then
        Done.(status := Some("Navigating to " + NavMessage(data.s)), effects := [Post(NAV_ACTION_URL + data.s)])
      else Idle
    case Quit =>
      Idle.(finished := remote.quitResult, status := Some("Sending quit event to WebUI"),
            quitResult := Some(remote.quitResult), effects := [RequestQuit])
    case GetContent => Done
    case SetContent => Done
    case StartRace =>
      Idle.(finished := CheckRequest(ReplyAt(remote.posts, 0)), status := Some("Starting Race Session"),
            effects := [Post(START_RACE_URL), PlaySound(Confirm)])
    case Drive =>
      Idle.(finished := CheckRequest(ReplyAt(remote.posts, 0)), status := Some("Requesting to Drive"),
            effects := [Post(DRIVE_URL), PlaySound(Switch)])
    case PressKey =>
      if Truthy(data) then
        Done.(status := Some("Sending key: " + Show(data)), effects := [KeyTap(Show(data)), PlaySound(Switch)])
      else Done
    case PressShiftKey => ModifiedKey(data, "Shift", "DIK_LSHIFT")
    case PressCtrlKey => ModifiedKey(data, "Ctrl", "DIK_LCONTROL")
    case PressAltKey => ModifiedKey(data, "Alt", "DIK_LMENU")
    case TimeoutCommand =>
      if Seconds(data).Some? then
        Done.(status := Some("Waiting for " + Show(data) + "s"), effects := [Sleep(Seconds(data).value)])
      else Done
    case RecordBenchmark =>
      Done.(recordBenchmark := true, status := Some("Recording Benchmark."), effects := [PlaySound(Ping)])
    case SetSessionSettings => SessionOutcome(data, restApi, remote)
    case ReplayPlayback => if Truthy(data) then Done.(effects := [ReplayPlaybackRequest(data)]) else Done
    case ReplayTime => if Truthy(data) then Done.(effects := [ReplayTimeRequest(data)]) else Done
    case ReplayFocus => FocusOutcome(data, remote.standings)
    case AiTakeControl =>
      Done.(status := Some("Requesting AI Control for current vehicle."), effects := [Post(AI_CONTROL_URL)])
    case ToRaceMenu => Done.(status := Some("Returning to race menu"), effects := [Post(RACE_MENU_URL)])
  }

  /** `wait_for_state` finishes exactly when the game is in the awaited state. */
  lemma WaitForStateFinishesIff(target: RfactorState, state: RfactorState, restApi: bool, remote: Remote)
    ensures var o := Handle(WaitForState, Int(StateCode(target)), state, restApi, remote);
      && (o.finished <==> target == state)
      && o.status == Some("Waiting for state: " + StateName(target))
      && !o.resetQueue && o.effects == []
  {
  }

  /**
   * `play_replay` plays the first replay of that name and finishes; with no such replay it asks
   * for a queue reset and stays unfinished; without a name it does nothing at all.
   */
  lemma PlayReplayCases(data: Data, state: RfactorState, restApi: bool, remote: Remote)
    ensures var o := Handle(PlayReplay, data, state, restApi, remote);
      && (!Truthy(data) ==> o == Idle)
      && (Truthy(data) && (exists j :: 0 <= j < |remote.replays| && data.Text? && remote.replays[j].name == data.s) ==>
            o.finished && !o.resetQueue && o.live && o.replayPlaying
            && o.effects == [PlayReplayRequest(remote.replays[FirstReplay(remote.replays, data)].id), SaveSettings])
      && (Truthy(data) && !(exists j :: 0 <= j < |remote.replays| && data.Text? && remote.replays[j].name == data.s) ==>
            !o.finished && o.resetQueue && !o.live && o.replayPlaying && o.effects == [SaveSettings])
  {
    var i := FirstReplay(remote.replays, data);
    if i < 0 {
      assert forall j :: 0 <= j < |remote.replays| ==> !(data.Text? && remote.replays[j].name == data.s);
    }
  }

  /**
   * `set_session_settings` leaves the command unfinished for a payload that is not a non-empty dict
   * and for a failed session read, and finishes at once when the REST API is not enabled.
   */
  lemma SessionSettingsExits(data: Data, state: RfactorState, restApi: bool, remote: Remote)
    ensures var o := Handle(SetSessionSettings, data, state, restApi, remote);
      && (!data.SessionDict? || data.entries == [] ==> o == Idle)
      && (data.SessionDict? && data.entries != [] && !restApi ==> o == Done)
      && (data.SessionDict? && data.entries != [] && restApi && !CheckRequest(remote.sessions) ==> o == Idle)
      && (data.SessionDict? && data.entries != [] && restApi && CheckRequest(remote.sessions) ==>
            o.finished && |o.effects| >= 2
            && o.effects[|o.effects| - 2..] == [PlaySound(Switch), Post(NAV_ACTION_URL + NAV_TO_MAIN_MENU)]
            && |o.effects| <= 2 + MAX_ATTEMPTS * TotalGap(data.entries, remote.sessions.body))
  {
    if data.SessionDict? && data.entries != [] && restApi && CheckRequest(remote.sessions) {
      SessionKeysBound(data.entries, 0, remote.sessions.body, remote.posts, 0);
      assert data.entries[0..] == data.entries;
    }
  }

  /** Starting the race and driving finish only when their POST passed the check. */
  lemma PostCommandsFinishIff(kind: Kind, data: Data, state: RfactorState, restApi: bool, remote: Remote)
    requires kind == StartRace || kind == Drive
    ensures Handle(kind, data, state, restApi, remote).finished <==> CheckRequest(ReplyAt(remote.posts, 0))
  {
  }

  /**
   * Only `wait_for_state`, `play_replay`, `nav_action`, `quit`, `start_race`, `drive` and
   * `set_session_settings` can stay unfinished; every other kind finishes on its first run, and
   * only `play_replay` ever asks for a queue reset.
   */
  lemma FinishingKinds(kind: Kind, data: Data, state: RfactorState, restApi: bool, remote: Remote)
    ensures kind !in {WaitForState, PlayReplay, NavAction, Quit, StartRace, Drive, SetSessionSettings} ==>
              Handle(kind, data, state, restApi, remote).finished
    ensures kind != PlayReplay ==> !Handle(kind, data, state, restApi, remote).resetQueue
  {
  }

  /** A navigation action posts to its own action URL and shows the target without its prefix. */
  lemma NavActionPosts(action: string, state: RfactorState, restApi: bool, remote: Remote)
    ensures var o := Handle(NavAction, Text(action), state, restApi, remote);
      && o.finished && o.effects == [Post("/navigation/action/" + action)]
      && o.status == Some("Navigating to " + NavMessage(action))
  {
  }

  /** An action `NAV_TO_<t>` shows as `<t>`. */
  lemma NavMessageTo(t: string)
    ensures NavMessage("NAV_TO_" + t) == t
  {
    var action := "NAV_TO_" + t;
    assert action[4..] == "TO_" + t;
    assert ("TO_" + t)[..3] == "TO_";
    assert action[7..] == t;
  }

  /** An action `NAV_<t>` whose `t` does not start with `TO_` shows as `<t>`. */
  lemma NavMessagePlain(t: string)
    requires !StartsWith(t, "TO_")
    ensures NavMessage("NAV_" + t) == t
  {
    assert ("NAV_" + t)[4..] == t;
  }

  lemma NavToFullEventMonitor()
    ensures NavMessage("NAV_TO_FULL_EVENT_MONITOR") == "FULL_EVENT_MONITOR"
  {
    assert "NAV_TO_FULL_EVENT_MONITOR" == "NAV_TO_" + "FULL_EVENT_MONITOR";
    NavMessageTo("FULL_EVENT_MONITOR");
  }

  lemma NavBackToMainMenu()
    ensures NavMessage("NAV_BACK_TO_MAIN_MENU") == "BACK_TO_MAIN_MENU"
  {
    assert "BACK_TO_MAIN_MENU"[..3] == "BAC";
    assert "NAV_BACK_TO_MAIN_MENU" == "NAV_" + "BACK_TO_MAIN_MENU";
    NavMessagePlain("BACK_TO_MAIN_MENU");
  }

  /** The navigation targets the command builders use, as the status line shows them. */
  lemma NavMessageExamples()
    ensures NavMessage("NAV_TO_FULL_EVENT_MONITOR") == "FULL_EVENT_MONITOR"
    ensures NavMessage("NAV_BACK_TO_MAIN_MENU") == "BACK_TO_MAIN_MENU"
  {
    NavToFullEventMonitor();
    NavBackToMainMenu();
  }

  /**
   * `replay_focus` always finishes; with a passing standings request it puts exactly one focus
   * request, for the first matching driver's slot, unless that slot is -1.
   */
  lemma ReplayFocusCases(data: Data, state: RfactorState, restApi: bool, remote: Remote)
    ensures var o := Handle(ReplayFocus, data, state, restApi, remote);
      && o.finished
      && (!CheckRequest(remote.standings) ==> o.effects == [])
      && ((CheckRequest(remote.standings)
           && forall j :: 0 <= j < |remote.standings.body| ==> !DriverMatches(remote.standings.body[j], data))
          ==> o.effects == [])
      && (o.effects != [] ==> exists slot :: slot != -1 && o.effects == [Put(FOCUS_URL + IntToString(slot))])
      && (CheckRequest(remote.standings) ==>
            forall j :: 0 <= j < |remote.standings.body| && DriverMatches(remote.standings.body[j], data)
                        && NoDriverBefore(remote.standings.body, data, j) ==>
              o.effects == if remote.standings.body[j].slotId == -1 then []
                           else [Put(FOCUS_URL + IntToString(remote.standings.body[j].slotId))])
  {
  }

  // ---------------------------------------------------------------------------------------------
  // The objects
  // ---------------------------------------------------------------------------------------------

  class Command {
    const kind: Kind
    const data: Data
    const timeout: real
    var finished: bool
    var resetQueue: bool
    /** Time of creation, then of activation. */
    var created: real

    constructor (kind: Kind, data: Data, timeout: Option<real>, now: real)
      ensures this.kind == kind && this.data == data && this.timeout == EffectiveTimeout(timeout)
      ensures !finished && !resetQueue && created == now
    {
      this.kind := kind;
      this.data := data;
      this.timeout := if timeout.None? || timeout.value == 0.0 then DEFAULT_TIMEOUT else timeout.value;
      finished := false;
      resetQueue := false;
      created := now;
    }

    /** `activate`: the timeout clock restarts when the command becomes current. */
    method Activate(now: real)
      modifies this`created
      ensures created == now
    {
      created := now;
    }

    predicate TimedOut(now: real)
      reads this
    {
      TimedOutAt(created, timeout, now)
    }

    /** Index of the first replay named like the payload, or -1 (the replay search loop). */
    static method FindReplay(replays: seq<ReplayInfo>, data: Data) returns (i: int)
      ensures i == FirstReplay(replays, data)
    {
      var k := 0;
      while k < |replays|
        invariant 0 <= k <= |replays|
        invariant forall j :: 0 <= j < k ==> !(data.Text? && replays[j].name == data.s)
      {
        if data.Text? && replays[k].name == data.s {
          return k;
        }
        k := k + 1;
      }
      return -1;
    }

    /** The slot of the first standing entry of the payload's driver, or -1 (the standings loop). */
    static method FindFocusSlot(standings: seq<Standing>, data: Data) returns (slot: int)
      ensures slot == FocusSlot(standings, data)
    {
      slot := -1;
      var k := 0;
      while k < |standings|
        invariant 0 <= k <= |standings|
        invariant FocusSlot(standings, data) == FocusSlot(standings[k..], data)
      {
        assert standings[k..][1..] == standings[k + 1..];
        if DriverMatches(standings[k], data) {
          slot := standings[k].slotId;
          return;
        }
        k := k + 1;
      }
    }

    /** The retry loop of one unit step: up to three POSTs until one passes the check. */
    static method SendAttempts(key: string, direction: int, replies: seq<Reply<Option<int>>>, k0: nat)
      returns (attempt: seq<Effect>, k: nat, result: Option<Option<int>>)
      ensures (k, result) == Attempts(replies, k0, MAX_ATTEMPTS)
      ensures attempt == Repeat(PostSetting(key, direction), k - k0)
    {
      k := k0;
      result := None;
      attempt := [];
      var retries: nat := MAX_ATTEMPTS;
      while retries > 0
        invariant retries <= MAX_ATTEMPTS && k >= k0 && k - k0 == MAX_ATTEMPTS - retries
        invariant Attempts(replies, k0, MAX_ATTEMPTS) == Attempts(replies, k, retries)
        invariant attempt == Repeat(PostSetting(key, direction), k - k0)
        invariant result == None
      {
        retries := retries - 1;
        var s := ReplyAt(replies, k);
        k := k + 1;
        attempt := attempt + [PostSetting(key, direction)];
        if CheckRequest(s) {
          result := Some(s.body);
          return;
        }
      }
    }

    /** The step loop of one setting: `n` unit steps, stopping once the target is reported. */
    static method SendSteps(key: string, direction: int, target: int, replies: seq<Reply<Option<int>>>,
                            k0: nat, n: nat) returns (sent: seq<Effect>, k: nat)
      ensures sent == Steps(key, direction, target, replies, k0, n).0
      ensures k == Steps(key, direction, target, replies, k0, n).1
    {
      sent := [];
      k := k0;
      var numSends := n;
      while numSends > 0
        invariant Steps(key, direction, target, replies, k0, n).0
               == sent + Steps(key, direction, target, replies, k, numSends).0
        invariant Steps(key, direction, target, replies, k0, n).1 == Steps(key, direction, target, replies, k, numSends).1
      {
        ghost var kStep := k;
        StepsUnfold(key, direction, target, replies, kStep, numSends);
        numSends := numSends - 1;
        var attempt, result;
        attempt, k, result := SendAttempts(key, direction, replies, k);
        if ReachedTarget(result, target) {
          sent := sent + attempt;
          return;
        }
        AppendAssoc(sent, attempt, Steps(key, direction, target, replies, k, numSends).0);
        sent := sent + attempt;
      }
    }

    /** One setting: skip it, or step it toward its target. */
    static method SendKey(key: string, target: int, current: map<string, int>,
                          replies: seq<Reply<Option<int>>>, k0: nat) returns (sent: seq<Effect>, k: nat)
      ensures sent == KeySteps(key, target, current, replies, k0).0
      ensures k == KeySteps(key, target, current, replies, k0).1
    {
      if key !in current {
        return [], k0;
      }
      var cur := current[key];
      if cur == target {
        return [], k0;
      }
      var direction := if target - cur > 0 then 1 else 0;
      var high := if target > cur then target else cur;
      var low := if target < cur then target else cur;
      sent, k := SendSteps(key, direction, target, replies, k0, high - low);
    }

    /** The loop over the settings of `set_session_settings`. */
    static method SendSessionSettings(entries: seq<(string, int)>, current: map<string, int>,
                                      replies: seq<Reply<Option<int>>>) returns (effects: seq<Effect>)
      ensures effects == SessionKeys(entries, 0, current, replies, 0).0
    {
      effects := [];
      var k: nat := 0;
      var i := 0;
      while i < |entries|
        invariant 0 <= i <= |entries|
        invariant SessionKeys(entries, 0, current, replies, 0).0 == effects + SessionKeys(entries, i, current, replies, k).0
      {
        ghost var before := effects;
        ghost var kBefore := k;
        var sent;
        sent, k := SendKey(entries[i].0, entries[i].1, current, replies, k);
        effects := effects + sent;
        ghost var rest := SessionKeys(entries, i + 1, current, replies, k).0;
        assert SessionKeys(entries, i, current, replies, kBefore).0 == sent + rest;
        assert before + (sent + rest) == effects + rest;
        i := i + 1;
      }
    }

    /** `execute`: run the handler of this command's kind once. */
    method Execute(state: RfactorState, restApi: bool, events: Events, settings: Settings, remote: Remote)
      returns (effects: seq<Effect>)
      modifies this`finished, this`resetQueue, events`status, events`live, events`quitResult,
               events`recordBenchmark, settings`replayPlaying
      ensures var o := Handle(kind, data, state, restApi, remote);
        && effects == o.effects
        && finished == (old(finished) || o.finished)
        && resetQueue == (old(resetQueue) || o.resetQueue)
        && events.status == o.status.GetOr(old(events.status))
        && events.live == (o.live || old(events.live))
        && events.quitResult == (if o.quitResult.Some? then o.quitResult else old(events.quitResult))
        && events.recordBenchmark == (o.recordBenchmark || old(events.recordBenchmark))
        && settings.replayPlaying == (o.replayPlaying || old(settings.replayPlaying))
    {
      if kind in {WaitForState, PlayReplay, NavAction, Quit, StartRace, Drive, SetSessionSettings} {
        effects := ExecuteWaiting(state, restApi, events, settings, remote);
      } else {
        effects := ExecuteOnce(state, restApi, events, settings, remote);
      }
    }

    /** The handlers of the kinds that can leave the command unfinished. */
    method ExecuteWaiting(state: RfactorState, restApi: bool, events: Events, settings: Settings, remote: Remote)
      returns (effects: seq<Effect>)
      requires kind in {WaitForState, PlayReplay, NavAction, Quit, StartRace, Drive, SetSessionSettings}
      modifies this`finished, this`resetQueue, events`status, events`live, events`quitResult, settings`replayPlaying
      ensures var o := Handle(kind, data, state, restApi, remote);
        && !o.recordBenchmark
        && effects == o.effects
        && finished == (old(finished) || o.finished)
        && resetQueue == (old(resetQueue) || o.resetQueue)
        && events.status == o.status.GetOr(old(events.status))
        && events.live == (o.live || old(events.live))
        && events.quitResult == (if o.quitResult.Some? then o.quitResult else old(events.quitResult))
        && settings.replayPlaying == (o.replayPlaying || old(settings.replayPlaying))
    {
      effects := [];
      match kind {
        case WaitForState =>
          if DataAsInt(data) == Some(StateCode(state)) {
            finished := true;
          }
          events.status := "Waiting for state: " + StateLabel(data);
        case PlayReplay =>
          if !Truthy(data) {
            return;
          }
          events.status := "Getting Replay Id: " + Show(data);
          var i := FindReplay(remote.replays, data);
          if i >= 0 {
            effects := effects + [PlayReplayRequest(remote.replays[i].id)];
          }
          settings.replayPlaying := true;
          effects := effects + [SaveSettings];
          if i < 0 {
            events.status := "Could not find Replay: " + Show(data);
            resetQueue := true;
            return;
          }
          events.live := true;
          events.status := "Loading Replay " + Show(data);
          finished := true;
        case NavAction =>
          if !data.Text? {
            return;
          }
          var message := if |data.s| <= 4 then "" else data.s[4..];
          if StartsWith(message, "TO_") {
            message := message[3..];
          }
          events.status := "Navigating to " + message;
          effects := [Post(NAV_ACTION_URL + data.s)];
          finished := true;
        case Quit =>
          events.status := "Sending quit event to WebUI";
          effects := [RequestQuit];
          events.quitResult := Some(remote.quitResult);
          if remote.quitResult {
            finished := true;
          }
        case StartRace =>
          events.status := "Starting Race Session";
          effects := [Post(START_RACE_URL), PlaySound(Confirm)];
          if CheckRequest(ReplyAt(remote.posts, 0)) {
            finished := true;
          }
        case Drive =>
          events.status := "Requesting to Drive";
          effects := [Post(DRIVE_URL), PlaySound(Switch)];
          if CheckRequest(ReplyAt(remote.posts, 0)) {
            finished := true;
          }
        case SetSessionSettings =>
          if !data.SessionDict? || data.entries == [] {
            return;
          }
          if !restApi {
            finished := true;
            return;
          }
          if !CheckRequest(remote.sessions) {
            return;
          }
          effects := SendSessionSettings(data.entries, remote.sessions.body, remote.posts);
          effects := effects + [PlaySound(Switch), Post(NAV_ACTION_URL + NAV_TO_MAIN_MENU)];
          finished := true;
      }
    }

    /** The handlers of the kinds that always finish on their first run. */
    method ExecuteOnce(state: RfactorState, restApi: bool, events: Events, settings: Settings, remote: Remote)
      returns (effects: seq<Effect>)
      requires kind !in {WaitForState, PlayReplay, NavAction, Quit, StartRace, Drive, SetSessionSettings}
      modifies this`finished, events`status, events`recordBenchmark
      ensures var o := Handle(kind, data, state, restApi, remote);
        && o.finished && !o.resetQueue && !o.live && o.quitResult.None? && !o.replayPlaying
        && effects == o.effects
        && finished
        && events.status == o.status.GetOr(old(events.status))
        && events.recordBenchmark == (o.recordBenchmark || old(events.recordBenchmark))
    {
      effects := [];
      match kind {
        case GetContent =>
          finished := true;
        case SetContent =>
          finished := true;
        case PressKey =>
          if Truthy(data) {
            events.status := "Sending key: " + Show(data);
            effects := [KeyTap(Show(data)), PlaySound(Switch)];
          }
          finished := true;
        case PressShiftKey =>
          effects := PressWithModifier(events, "Shift", "DIK_LSHIFT");
        case PressCtrlKey =>
          effects := PressWithModifier(events, "Ctrl", "DIK_LCONTROL");
        case PressAltKey =>
          effects := PressWithModifier(events, "Alt", "DIK_LMENU");
        case TimeoutCommand =>
          if Seconds(data).Some? {
            events.status := "Waiting for " + Show(data) + "s";
            effects := [Sleep(Seconds(data).value)];
          }
          finished := true;
        case RecordBenchmark =>
          events.recordBenchmark := true;
          events.status := "Recording Benchmark.";
          effects := [PlaySound(Ping)];
          finished := true;
        case ReplayPlayback =>
          if Truthy(data) {
            effects := [ReplayPlaybackRequest(data)];
          }
          finished := true;
        case ReplayTime =>
          if Truthy(data) {
            effects := [ReplayTimeRequest(data)];
          }
          finished := true;
        case ReplayFocus =>
          if !CheckRequest(remote.standings) {
            finished := true;
            return;
          }
          var slot := FindFocusSlot(remote.standings.body, data);
          if slot == -1 {
            finished := true;
            return;
          }
          effects := [Put(FOCUS_URL + IntToString(slot))];
          finished := true;
        case AiTakeControl =>
          events.status := "Requesting AI Control for current vehicle.";
          effects := [Post(AI_CONTROL_URL)];
          finished := true;
        case ToRaceMenu =>
          events.status := "Returning to race menu";
          effects := [Post(RACE_MENU_URL)];
          finished := true;
      }
    }

    /** The press-with-modifier handlers: hold the modifier around the key, then finish. */
    method PressWithModifier(events: Events, side: string, modifier: string) returns (effects: seq<Effect>)
      modifies this`finished, events`status
      ensures var o := ModifiedKey(data, side, modifier);
        && effects == o.effects && finished && events.status == o.status.GetOr(old(events.status))
    {
      effects := [];
      if Truthy(data) {
        events.status := "Sending key + left " + side + ": " + Show(data);
        effects := [KeyDown(modifier), KeyTap(Show(data)), KeyUp(modifier)];
      }
      finished := true;
    }
  }

  /** What a queued command is: its kind, its payload and its effective timeout. */
  datatype Order = Order(kind: Kind, data: Data, timeout: real)

  function OrderOf(c: Command): Order {
    Order(c.kind, c.data, c.timeout)
  }

  /** The orders of a queue of commands, in queue order. */
  function Orders(q: seq<Command>): (r: seq<Order>)
    ensures |r| == |q|
    ensures forall i :: 0 <= i < |q| ==> r[i] == OrderOf(q[i])
  {
    seq(|q|, i requires 0 <= i < |q| => OrderOf(q[i]))
  }

  /** Seconds without an executed command after which the queue switches to idle polling. */
  const IDLE_TIMEOUT_QUEUE: real := 30.0

  /** The "idle" branch of `run`: nothing to execute and more than 30 s since the last command. */
  predicate IdleTick(executed: Command?, now: real, last: real) {
    executed == null && now - last > IDLE_TIMEOUT_QUEUE
  }

  class CommandQueue {
    var queue: seq<Command>
    var current: Command?
    var lastCommandTime: real

    constructor ()
      ensures queue == [] && current == null && lastCommandTime == 0.0
    {
      queue := [];
      current := null;
      lastCommandTime := 0.0;
    }

    /** The command that `GetNext` would activate. */
    function Head(): set<Command>
      reads this
    {
      if |queue| > 0 then {queue[0]} else {}
    }

    predicate IsEmpty()
      reads this
    {
      |queue| == 0
    }

    method Append(c: Command)
      modifies this`queue
      ensures queue == old(queue) + [c]
    {
      queue := queue + [c];
    }

    /** `CommandQueue.append(Command(kind, data=data, timeout=timeout))`: a new, unfinished command at the tail. */
    method AppendNew(kind: Kind, data: Data, timeout: Option<real>, now: real)
      modifies this`queue
      ensures Orders(queue) == Orders(old(queue)) + [Order(kind, data, EffectiveTimeout(timeout))]
      ensures queue[..|old(queue)|] == old(queue) && |queue| == |old(queue)| + 1
      ensures fresh(queue[|queue| - 1]) && !queue[|queue| - 1].finished && !queue[|queue| - 1].resetQueue
    {
      var c := new Command(kind, data, timeout, now);
      queue := queue + [c];
      assert queue[..|old(queue)|] == old(queue);
    }

    /** `reset`: drop every queued command; the current one stays. */
    method Reset()
      modifies this`queue
      ensures queue == []
    {
      queue := [];
    }

    /** `_get_next`: the head becomes current, leaves the queue and is re-stamped. */
    method GetNext(now: real) returns (cmd: Command?)
      modifies this`current, this`queue, Head()`created
      ensures old(queue) == [] ==> cmd == null && queue == []
      ensures old(queue) != [] ==> cmd == old(queue[0]) && queue == old(queue[1..]) && cmd.created == now
      ensures current == cmd
    {
      current := null;
      if !IsEmpty() {
        cmd := queue[0];
        queue := queue[1..];
        cmd.Activate(now);
        current := cmd;
        return;
      }
      cmd := null;
    }

    /** Keep the current command: not resetting, not timed out and not finished. */
    predicate KeepsCurrent(now: real)
      reads this, current
    {
      current != null && !current.resetQueue && !current.TimedOut(now) && !current.finished
    }

    /** The current command requests a reset of the whole queue. */
    predicate Resets()
      reads this, current
    {
      current != null && current.resetQueue
    }

    /** The command `Next` returns in the present state. */
    function Chosen(now: real): Command?
      reads this, current
    {
      if KeepsCurrent(now) then current
      else if Resets() || queue == [] then null
      else queue[0]
    }

    /** `next`: keep the current command, or advance (after a reset request: to nothing). */
    method Next(now: real) returns (cmd: Command?)
      modifies this`current, this`queue, Head()`created
      ensures cmd == old(Chosen(now)) && current == cmd
      ensures old(KeepsCurrent(now)) ==> queue == old(queue)
      ensures old(Resets()) ==> queue == []
      ensures !old(KeepsCurrent(now)) && !old(Resets()) ==> queue == old(if queue == [] then [] else queue[1..])
      ensures !old(KeepsCurrent(now)) && cmd != null ==> cmd.created == now
    {
      if current != null {
        if current.resetQueue {
          Reset();
          cmd := GetNext(now);
          return;
        }
        if current.TimedOut(now) {
          cmd := GetNext(now);
          return;
        }
        if current.finished {
          cmd := GetNext(now);
          return;
        }
        return current;
      }
      cmd := GetNext(now);
    }

    /** `run`: one tick of the queue; executes at most one command. */
    method Run(now: real, conn: RfactorConnect, env: Env, events: Events, settings: Settings, remote: Remote)
      returns (executed: Command?, effects: seq<Effect>)
      modifies this, Head(), (if current != null then {current} else {}), conn, conn.worker,
               events`status, events`live, events`quitResult, events`recordBenchmark, settings`replayPlaying
      ensures executed == old(Chosen(now)) && current == executed
      ensures old(KeepsCurrent(now)) ==> queue == old(queue)
      ensures old(Resets()) ==> queue == []
      ensures !old(KeepsCurrent(now)) && !old(Resets()) ==> queue == old(if queue == [] then [] else queue[1..])
      ensures IdleTick(executed, now, old(lastCommandTime)) ==>
                events.status == "" && effects == [] && lastCommandTime == old(lastCommandTime)
                && conn.Model() == CheckConnectionSpec(old(conn.Model()).(interval := IdleInterval(old(conn.interval))), now, env)
      ensures !IdleTick(executed, now, old(lastCommandTime)) ==>
                conn.Model() == CheckConnectionSpec(old(conn.Model()).(interval := ActiveInterval(old(conn.interval))), now, env)
      ensures executed == null && !IdleTick(executed, now, old(lastCommandTime)) ==>
                effects == [] && lastCommandTime == old(lastCommandTime) && events.status == old(events.status)
      ensures executed != null ==>
                var o := Handle(executed.kind, executed.data, conn.state, conn.restApiEnabled, remote);
                && lastCommandTime == now
                && effects == o.effects
                && executed.finished == (old(executed.finished) || o.finished)
                && executed.resetQueue == (old(executed.resetQueue) || o.resetQueue)
                && Applied(o, old(events.status), old(events.live), old(events.quitResult),
                           old(events.recordBenchmark), old(settings.replayPlaying), events, settings)
      ensures executed == null ==>
                && events.live == old(events.live) && events.quitResult == old(events.quitResult)
                && events.recordBenchmark == old(events.recordBenchmark)
                && settings.replayPlaying == old(settings.replayPlaying)
    {
      executed := Next(now);
      effects := Dispatch(executed, now, conn, env, events, settings, remote);
    }

    /** The rest of `run` once the command is chosen: the polling interval, the connection check, the handler. */
    method Dispatch(command: Command?, now: real, conn: RfactorConnect, env: Env, events: Events, settings: Settings,
                    remote: Remote) returns (effects: seq<Effect>)
      modifies this`lastCommandTime, (if command != null then {command} else {}), conn, conn.worker,
               events`status, events`live, events`quitResult, events`recordBenchmark, settings`replayPlaying
      ensures IdleTick(command, now, old(lastCommandTime)) ==>
                events.status == "" && effects == [] && lastCommandTime == old(lastCommandTime)
                && conn.Model() == CheckConnectionSpec(old(conn.Model()).(interval := IdleInterval(old(conn.interval))), now, env)
      ensures !IdleTick(command, now, old(lastCommandTime)) ==>
                conn.Model() == CheckConnectionSpec(old(conn.Model()).(interval := ActiveInterval(old(conn.interval))), now, env)
      ensures command == null && !IdleTick(command, now, old(lastCommandTime)) ==>
                effects == [] && lastCommandTime == old(lastCommandTime) && events.status == old(events.status)
      ensures command != null ==>
                var o := Handle(command.kind, command.data, conn.state, conn.restApiEnabled, remote);
                && lastCommandTime == now
                && effects == o.effects
                && command.finished == (old(command.finished) || o.finished)
                && command.resetQueue == (old(command.resetQueue) || o.resetQueue)
                && Applied(o, old(events.status), old(events.live), old(events.quitResult),
                           old(events.recordBenchmark), old(settings.replayPlaying), events, settings)
      ensures command == null ==>
                && events.live == old(events.live) && events.quitResult == old(events.quitResult)
                && events.recordBenchmark == old(events.recordBenchmark)
                && settings.replayPlaying == old(settings.replayPlaying)
    {
      effects := [];
      if command == null && now - lastCommandTime > IDLE_TIMEOUT_QUEUE {
        if events.status != "" {
          events.status := "";
        }
        conn.SetToIdleTimeout();
        conn.CheckConnection(now, env);
        return;
      }
      conn.SetToActiveTimeout();
      conn.CheckConnection(now, env);
      if command != null {
        effects := command.Execute(conn.state, conn.restApiEnabled, events, settings, remote);
        lastCommandTime := now;
      }
    }
  }
}
