/**
 * The connection monitor: it turns three unreliable signals (a navigation-state GET answered by a
 * background worker, the OS process list and a shared-memory telemetry block) into one game
 * state, and adapts its polling interval.
 *
 * The connection is an object whose fields the operations update in place (`RfactorConnect`); its
 * abstract value is the datatype `Conn`, and each operation is specified by a function on `Conn`.
 * The properties the source promises are lemmas about those functions.
 */
module Rf2Connect {
  import opened Common

  /** The game state; the source encodes it as the ints 0, 1, 2 and 10. */
  datatype RfactorState = Unavailable | Loading | Ready | WaitingForProcess

  function StateCode(s: RfactorState): int {
    match s
    case Unavailable => 0
    case Loading => 1
    case Ready => 2
    case WaitingForProcess => 10
  }

  /** `RfactorState.names.get(state)` as a status text; waiting-for-process has no name entry. */
  function StateName(s: RfactorState): string {
    match s
    case Unavailable => "Unavailable"
    case Loading => "Loading"
    case Ready => "Ready"
    case WaitingForProcess => "None"
  }

  const HOST := "localhost"
  /** Ceiling of the connection check interval, in seconds. */
  const LONG_TIMEOUT: real := 120.0
  /** Interval used after an active connection went away. */
  const IDLE_TIMEOUT: real := 15.0
  /** Interval used while something is going on (loading, commands pending). */
  const ACTIVE_TIMEOUT: real := 1.0
  /** Factor by which the interval grows with every due check. */
  const GROWTH: real := 1.1
  const GAME_EXECUTABLE := "Le Mans Ultimate.exe"
  const NAV_STATE_URL := "/navigation/state"

  /** One entry of the OS process list. */
  datatype Process = Process(pid: nat, name: string)

  /** What the shared-memory telemetry block reports. */
  datatype SharedMemory = SharedMemory(verified: bool, simRunning: bool, available: bool)

  /**
   * The environment of one connection check: the process list, the shared-memory flags and the
   * result of looking up the web UI port in the player settings (None: the lookup failed).
   */
  datatype Env = Env(processes: seq<Process>, sharedMemory: SharedMemory, webUiPort: Option<int>)

  /** The JSON body of a navigation-state reply, reduced to what `set_state` reads. */
  datatype NavBody = NavBody(statusCode: Option<int>, loading: bool)

  /** What one blocking GET in the worker produced. */
  datatype HttpOutcome = Raised | NoResponse | Response(status: int, body: NavBody)

  /** An entry of the response queue: `False` (no response) or a dict. */
  datatype NavResponse = NavFalse | NavDict(statusCode: Option<int>, loading: bool)

  /** A request handed to the worker. */
  datatype Request = Get(url: string)

  predicate IsSuccess(status: int) {
    200 <= status <= 204
  }

  /** The worker's mapping of one GET outcome to what it puts on the response queue. */
  function GetResult(outcome: HttpOutcome): (r: Option<NavResponse>)
    ensures r == None <==> outcome.Raised?
    ensures r == Some(NavFalse) <==> outcome.NoResponse?
    ensures outcome.Response? && IsSuccess(outcome.status) ==>
              r == Some(NavDict(outcome.body.statusCode, outcome.body.loading))
    ensures outcome.Response? && !IsSuccess(outcome.status) ==>
              r == Some(NavDict(Some(outcome.status), false))
  {
    match outcome
    case Raised => None
    case NoResponse => Some(NavFalse)
    case Response(status, body) =>
      if IsSuccess(status) then Some(NavDict(body.statusCode, body.loading))
      else Some(NavDict(Some(status), false))
  }

  /** The abstract value of the connection monitor and its two message queues. */
  datatype Conn = Conn(
    state: RfactorState,
    port: int,
    interval: real,
    lastCheck: real,
    sharedMemCheck: Option<bool>,
    pid: Option<nat>,
    checkForPid: bool,
    requests: seq<Request>,
    responses: seq<NavResponse>)

  function Min(a: real, b: real): real {
    if a <= b then a else b
  }

  /** `set_to_active_timeout`: lower the interval to the active timeout. */
  function ActiveInterval(i: real): (r: real)
    ensures r <= i && r <= ACTIVE_TIMEOUT
    ensures r == i || r == ACTIVE_TIMEOUT
  {
    if i > ACTIVE_TIMEOUT then ACTIVE_TIMEOUT else i
  }

  /** `set_to_idle_timeout`: raise the interval to the idle timeout. */
  function IdleInterval(i: real): (r: real)
    ensures r >= i && r >= IDLE_TIMEOUT
    ensures r == i || r == IDLE_TIMEOUT
  {
    if i < IDLE_TIMEOUT then IDLE_TIMEOUT else i
  }

  /** Both clamps are idempotent, and clamping one way after the other gives that bound. */
  lemma ClampsIdempotent(i: real)
    ensures ActiveInterval(ActiveInterval(i)) == ActiveInterval(i)
    ensures IdleInterval(IdleInterval(i)) == IdleInterval(i)
    ensures ActiveInterval(IdleInterval(i)) == ACTIVE_TIMEOUT
    ensures IdleInterval(ActiveInterval(i)) == IDLE_TIMEOUT
  {
  }

  predicate IsGameProcess(p: Process) {
    StartsWith(Lower(p.name), Lower(GAME_EXECUTABLE))
  }

  /** The index of the first game process in the list, or -1 (the loop of `get_pid`). */
  function FirstGameProcess(procs: seq<Process>): (i: int)
    ensures -1 <= i < |procs|
    ensures i >= 0 ==> IsGameProcess(procs[i])
    ensures forall j :: 0 <= j < |procs| && (i < 0 || j < i) ==> !IsGameProcess(procs[j])
    decreases |procs|
  {
    if procs == [] then -1
    else if IsGameProcess(procs[0]) then 0
    else
      var k := FirstGameProcess(procs[1..]);
      if k < 0 then -1 else k + 1
  }

  /** A process with the known game pid is still in the list. */
  predicate PidRunning(pid: Option<nat>, procs: seq<Process>) {
    pid.Some? && exists k :: 0 <= k < |procs| && procs[k].pid == pid.value
  }

  /** `_rf2_processes_detected`: whether the game still runs, and the pid it then remembers. */
  function DetectProcesses(c: Conn, procs: seq<Process>): (r: (bool, Conn))
  {
    if PidRunning(c.pid, procs) then (true, c)
    else
      var i := FirstGameProcess(procs);
      if i >= 0 then (true, c.(pid := Some(procs[i].pid))) else (false, c)
  }

  /** Process detection holds exactly when the known pid or some game process is listed. */
  lemma DetectProcessesSpec(c: Conn, procs: seq<Process>)
    ensures DetectProcesses(c, procs).0 <==>
              PidRunning(c.pid, procs) || exists k :: 0 <= k < |procs| && IsGameProcess(procs[k])
    ensures DetectProcesses(c, procs).1 == c.(pid := DetectProcesses(c, procs).1.pid)
    ensures !DetectProcesses(c, procs).0 ==> DetectProcesses(c, procs).1 == c
  {
    var i := FirstGameProcess(procs);
    if !PidRunning(c.pid, procs) && i < 0 {
      assert forall k :: 0 <= k < |procs| ==> !IsGameProcess(procs[k]);
    }
  }

  /** `_shared_memory_check`. */
  function SharedMemoryCheckSpec(c: Conn, procs: seq<Process>, shm: SharedMemory): Conn {
    if !shm.verified then
      if shm.simRunning && !shm.available then c.(sharedMemCheck := Some(false)) else c
    else if !shm.simRunning then
      var (detected, c1) := DetectProcesses(c, procs);
      if detected then c1.(interval := ActiveInterval(c1.interval))
      else c1.(state := Unavailable, checkForPid := true)
    else c
  }

  /** The interval and shared-memory reactions of `set_state` to a change of state. */
  function OnStateChange(previous: RfactorState, c: Conn): Conn {
    if previous == c.state then c
    else if c.state == Loading || c.state == WaitingForProcess then c.(interval := ActiveInterval(c.interval))
    else if c.state == Unavailable then c.(interval := IdleInterval(c.interval))
    else if c.sharedMemCheck == None then c.(sharedMemCheck := Some(true))
    else c
  }

  /** The state a navigation dict stands for. */
  function DictState(statusCode: Option<int>, loading: bool): RfactorState {
    if statusCode.GetOr(200) != 200 then Loading else if loading then Loading else Ready
  }

  /** `set_state`. */
  function SetStateSpec(c: Conn, nav: NavResponse, procs: seq<Process>): Conn {
    match nav
    case NavDict(code, loading) => OnStateChange(c.state, c.(state := DictState(code, loading)))
    case NavFalse =>
      var (detected, c1) := DetectProcesses(c, procs);
      if detected then c1.(state := WaitingForProcess, interval := ActiveInterval(c1.interval))
      else OnStateChange(c.state, c1.(state := Unavailable, sharedMemCheck := None))
  }

  /** A check is due once `min(long_timeout, interval)` seconds have passed since the last one. */
  predicate PollDue(c: Conn, now: real) {
    now - c.lastCheck >= Min(LONG_TIMEOUT, c.interval)
  }

  /** The polling half of `check_connection`, after the shared-memory check. */
  function PollSpec(c: Conn, now: real, portLookup: Option<int>): Conn {
    if !PollDue(c, now) then c
    else
      var c1 := if c.interval < LONG_TIMEOUT then c.(interval := c.interval * GROWTH) else c;
      if c1.port == 0 && portLookup.None? then c1
      else
        var c2 := if c1.port == 0 then c1.(port := portLookup.value) else c1;
        if c2.requests == [] then c2.(lastCheck := now, requests := [Get(NAV_STATE_URL)]) else c2
  }

  /** `check_connection`. */
  function CheckConnectionSpec(c: Conn, now: real, env: Env): Conn {
    if c.responses != [] then
      SetStateSpec(c.(responses := []), c.responses[|c.responses| - 1], env.processes)
    else
      var c1 := if c.sharedMemCheck == Some(true) then SharedMemoryCheckSpec(c, env.processes, env.sharedMemory) else c;
      PollSpec(c1, now, env.webUiPort)
  }

  // ---------------------------------------------------------------------------------------------
  // Properties of set_state
  // ---------------------------------------------------------------------------------------------

  /** A navigation dict: a non-200 status means Loading, else the loading flag decides. */
  lemma SetStateFromDict(c: Conn, code: Option<int>, loading: bool, procs: seq<Process>)
    ensures var r := SetStateSpec(c, NavDict(code, loading), procs);
      && (code.Some? && code.value != 200 ==> r.state == Loading)
      && (code.None? || code.value == 200 ==> (r.state == Loading <==> loading))
      && (code.None? || code.value == 200 ==> (r.state == Ready <==> !loading))
      && r.pid == c.pid && r.port == c.port && r.requests == c.requests && r.lastCheck == c.lastCheck
  {
  }

  /**
   * No response and the game process is still listed: wait for it with fast polling; the pid is
   * kept while it runs, else the first game process's pid is remembered; nothing else changes.
   */
  lemma SetStateNoResponseDetected(c: Conn, procs: seq<Process>)
    requires PidRunning(c.pid, procs) || exists k :: 0 <= k < |procs| && IsGameProcess(procs[k])
    ensures var r := SetStateSpec(c, NavFalse, procs);
      && r == c.(state := WaitingForProcess, interval := ActiveInterval(c.interval), pid := r.pid)
      && r.interval <= ACTIVE_TIMEOUT
      && (PidRunning(c.pid, procs) ==> r.pid == c.pid)
      && (!PidRunning(c.pid, procs) ==> r.pid == Some(procs[FirstGameProcess(procs)].pid))
  {
    DetectProcessesSpec(c, procs);
  }

  /** No response and no game process: Unavailable, shared-memory checks back to unknown. */
  lemma SetStateNoResponseGone(c: Conn, procs: seq<Process>)
    requires !PidRunning(c.pid, procs)
    requires forall k :: 0 <= k < |procs| ==> !IsGameProcess(procs[k])
    ensures var r := SetStateSpec(c, NavFalse, procs);
      && r.state == Unavailable && r.sharedMemCheck == None && r.pid == c.pid
      && (c.state != Unavailable ==> r.interval == IdleInterval(c.interval) && r.interval >= IDLE_TIMEOUT)
      && (c.state == Unavailable ==> r.interval == c.interval)
  {
    DetectProcessesSpec(c, procs);
  }

  /** What an actual change of state does, and that no change does none of it. */
  lemma StateChangeEffects(previous: RfactorState, c: Conn)
    ensures var r := OnStateChange(previous, c);
      && r.state == c.state && r.port == c.port && r.requests == c.requests && r.responses == c.responses
      && (previous == c.state ==> r == c)
      && (previous != c.state && (c.state == Loading || c.state == WaitingForProcess) ==>
            r.interval <= ACTIVE_TIMEOUT && r.sharedMemCheck == c.sharedMemCheck)
      && (previous != c.state && c.state == Unavailable ==>
            r.interval >= IDLE_TIMEOUT && r.sharedMemCheck == c.sharedMemCheck)
      && (previous != c.state && c.state == Ready ==> r.interval == c.interval)
      && (previous != c.state && c.state == Ready && c.sharedMemCheck == None ==> r.sharedMemCheck == Some(true))
      && (previous != c.state && c.state == Ready && c.sharedMemCheck != None ==> r.sharedMemCheck == c.sharedMemCheck)
  {
  }

  /** A failed GET ends as Loading (HTTP error status) or as a process-list decision (no reply). */
  lemma GetResultThenSetState(c: Conn, outcome: HttpOutcome, procs: seq<Process>)
    requires !outcome.Raised?
    ensures outcome.Response? && !IsSuccess(outcome.status) ==>
              SetStateSpec(c, GetResult(outcome).value, procs).state == Loading
    ensures outcome.NoResponse? ==>
              SetStateSpec(c, GetResult(outcome).value, procs).state in {WaitingForProcess, Unavailable}
  {
  }

  // ---------------------------------------------------------------------------------------------
  // Properties of check_connection
  // ---------------------------------------------------------------------------------------------

  /** A pending response is applied via set_state and nothing is polled. */
  lemma PendingResponseWins(c: Conn, now: real, env: Env)
    requires c.responses != []
    ensures var r := CheckConnectionSpec(c, now, env);
      && r == SetStateSpec(c.(responses := []), c.responses[|c.responses| - 1], env.processes)
      && r.requests == c.requests && r.lastCheck == c.lastCheck && r.responses == []
  {
    var last := c.responses[|c.responses| - 1];
    var c0 := c.(responses := []);
    match last
    case NavDict(code, loading) =>
      StateChangeEffects(c0.state, c0.(state := DictState(code, loading)));
    case NavFalse =>
      DetectProcessesSpec(c0, env.processes);
      var c1 := DetectProcesses(c0, env.processes).1;
      StateChangeEffects(c0.state, c1.(state := Unavailable, sharedMemCheck := None));
  }

  /**
   * The poll step enqueues the navigation GET exactly when a check is due, the port is known (or
   * found) and the request queue is empty; the time of the last check changes only then.
   */
  lemma PollEnqueuesExactlyWhen(c: Conn, now: real, portLookup: Option<int>)
    ensures var r := PollSpec(c, now, portLookup);
      && (r.requests != c.requests <==>
            PollDue(c, now) && (c.port != 0 || portLookup.Some?) && c.requests == [])
      && (r.requests != c.requests ==> r.requests == [Get(NAV_STATE_URL)] && r.lastCheck == now)
      && (r.requests == c.requests ==> r.lastCheck == c.lastCheck)
      && r.state == c.state && r.responses == c.responses && r.sharedMemCheck == c.sharedMemCheck
  {
  }

  /** The interval grows by 1.1 only while below the ceiling and only when a check is due. */
  lemma PollIntervalGrowth(c: Conn, now: real, portLookup: Option<int>)
    ensures var r := PollSpec(c, now, portLookup);
      && (PollDue(c, now) && c.interval < LONG_TIMEOUT ==> r.interval == c.interval * GROWTH)
      && (!PollDue(c, now) || c.interval >= LONG_TIMEOUT ==> r.interval == c.interval)
  {
  }

  /** Without a pending response and with shared-memory checks off, only the poll step runs. */
  lemma CheckConnectionPollsOnly(c: Conn, now: real, env: Env)
    requires c.responses == [] && c.sharedMemCheck != Some(true)
    ensures CheckConnectionSpec(c, now, env) == PollSpec(c, now, env.webUiPort)
    ensures CheckConnectionSpec(c, now, env).state == c.state
  {
  }

  /**
   * The shared-memory check never overrides a still-running game: while game processes are listed
   * it only lowers the interval; the state becomes Unavailable only when none are.
   */
  lemma SharedMemoryShutdown(c: Conn, procs: seq<Process>, shm: SharedMemory)
    requires shm.verified && !shm.simRunning
    ensures var r := SharedMemoryCheckSpec(c, procs, shm);
      && ((PidRunning(c.pid, procs) || exists k :: 0 <= k < |procs| && IsGameProcess(procs[k])) ==>
            r.state == c.state && r.interval <= ACTIVE_TIMEOUT)
      && (!PidRunning(c.pid, procs) && (forall k :: 0 <= k < |procs| ==> !IsGameProcess(procs[k])) ==>
            r.state == Unavailable && r.checkForPid && r.interval == c.interval)
  {
    DetectProcessesSpec(c, procs);
  }

  // ---------------------------------------------------------------------------------------------
  // The objects
  // ---------------------------------------------------------------------------------------------

  /** The two message queues shared with the background request worker. */
  class RequestThread {
    var requests: seq<Request>
    var responses: seq<NavResponse>

    constructor ()
      ensures requests == [] && responses == []
    {
      requests := [];
      responses := [];
    }

    /**
     * One iteration of the worker loop: take the oldest request, perform it (its outcome is the
     * input) and queue the mapped result; a raised exception queues nothing.
     */
    method Serve(outcome: HttpOutcome)
      modifies this
      ensures old(requests) == [] ==> requests == old(requests) && responses == old(responses)
      ensures old(requests) != [] ==> requests == old(requests)[1..]
      ensures old(requests) != [] && GetResult(outcome).Some? ==>
                responses == old(responses) + [GetResult(outcome).value]
      ensures old(requests) != [] && GetResult(outcome).None? ==> responses == old(responses)
    {
      if requests == [] {
        return;
      }
      requests := requests[1..];
      var response := NavFalse;
      match outcome {
        case Raised =>
          return;
        case NoResponse =>
        case Response(status, body) =>
          if 200 <= status <= 204 {
            response := NavDict(body.statusCode, body.loading);
          } else {
            response := NavDict(Some(status), false);
          }
      }
      responses := responses + [response];
    }

    /** `check_response`: drain the whole response queue and keep only its last entry. */
    method CheckResponse() returns (r: Option<NavResponse>)
      modifies this
      ensures responses == [] && requests == old(requests)
      ensures old(responses) == [] ==> r == None
      ensures old(responses) != [] ==> r == Some(old(responses)[|old(responses)| - 1])
    {
      r := None;
      ghost var taken := 0;
      while |responses| > 0
        invariant 0 <= taken <= |old(responses)|
        invariant responses == old(responses)[taken..]
        invariant requests == old(requests)
        invariant taken == 0 <==> r == None
        invariant taken > 0 ==> r == Some(old(responses)[taken - 1])
        decreases |responses|
      {
        r := Some(responses[0]);
        responses := responses[1..];
        taken := taken + 1;
      }
    }
  }

  /** The connection monitor (`RfactorConnect`, class-level state in the source). */
  lemma LocalhostPrefix()
    ensures "http://" + HOST + ":" == "http://localhost:"
  {
  }

  /** A string starts with what was put before it, and what follows is the rest. */
  lemma PrefixOf(a: string, b: string)
    ensures StartsWith(a + b, a) && (a + b)[|a|..] == b
  {
    assert (a + b)[..|a|] == a;
  }

  class RfactorConnect {
    var state: RfactorState
    var webUiPort: int
    var interval: real
    var lastConnectionCheck: real
    /** None: unknown, Some(true): use shared memory, Some(false): shared memory unavailable. */
    var enableSharedMemCheck: Option<bool>
    var rf2Pid: Option<nat>
    var checkForRfPid: bool
    /** Whether commands may use the REST API for session settings (set outside this file). */
    var restApiEnabled: bool
    const worker: RequestThread

    function Model(): Conn
      reads this, worker
    {
      Conn(state, webUiPort, interval, lastConnectionCheck, enableSharedMemCheck, rf2Pid,
           checkForRfPid, worker.requests, worker.responses)
    }

    constructor (now: real, restApi: bool)
      ensures fresh(worker) && restApiEnabled == restApi
      ensures Model() == Conn(Unavailable, 0, IDLE_TIMEOUT, now, None, None, false, [], [])
    {
      state := Unavailable;
      webUiPort := 0;
      interval := IDLE_TIMEOUT;
      lastConnectionCheck := now;
      enableSharedMemCheck := None;
      rf2Pid := None;
      checkForRfPid := false;
      restApiEnabled := restApi;
      worker := new RequestThread();
    }

    /** `base_url`: the web UI root on localhost at the known port. */
    function BaseUrl(): (r: string)
      reads this
      ensures StartsWith(r, "http://localhost:")
      ensures r[|"http://localhost:"|..] == IntToString(webUiPort)
    {
      var prefix := "http://" + HOST + ":";
      assert prefix == "http://localhost:" by {
        LocalhostPrefix();
      }
      PrefixOf(prefix, IntToString(webUiPort));
      prefix + IntToString(webUiPort)
    }

    method SetToActiveTimeout()
      modifies this`interval
      ensures interval == ActiveInterval(old(interval))
    {
      if interval > ACTIVE_TIMEOUT {
        interval := ACTIVE_TIMEOUT;
      }
    }

    method SetToIdleTimeout()
      modifies this`interval
      ensures interval == IdleInterval(old(interval))
    {
      if interval < IDLE_TIMEOUT {
        interval := IDLE_TIMEOUT;
      }
    }

    /** `get_pid`: the pid of the first listed game process (remembered), or -1. */
    method GetPid(procs: seq<Process>) returns (pid: int)
      modifies this`rf2Pid
      ensures var i := FirstGameProcess(procs);
        && (i >= 0 ==> pid == procs[i].pid && rf2Pid == Some(procs[i].pid))
        && (i < 0 ==> pid == -1 && rf2Pid == old(rf2Pid))
    {
      var k := 0;
      while k < |procs|
        invariant 0 <= k <= |procs| && rf2Pid == old(rf2Pid)
        invariant forall j :: 0 <= j < k ==> !IsGameProcess(procs[j])
      {
        if StartsWith(Lower(procs[k].name), Lower(GAME_EXECUTABLE)) {
          rf2Pid := Some(procs[k].pid);
          return procs[k].pid;
        }
        k := k + 1;
      }
      return -1;
    }

    /** `_rf2_processes_detected`. */
    method ProcessesDetected(procs: seq<Process>) returns (detected: bool)
      modifies this`rf2Pid
      ensures (detected, Model()) == DetectProcesses(old(Model()), procs)
    {
      if rf2Pid.Some? && exists k :: 0 <= k < |procs| && procs[k].pid == rf2Pid.value {
        return true;
      }
      var pid := GetPid(procs);
      detected := pid >= 0;
    }

    /** `_shared_memory_check`. */
    method SharedMemoryCheck(procs: seq<Process>, shm: SharedMemory)
      modifies this
      ensures Model() == SharedMemoryCheckSpec(old(Model()), procs, shm)
    {
      if !shm.verified {
        if shm.simRunning {
          if !shm.available {
            enableSharedMemCheck := Some(false);
            return;
          }
        }
      } else {
        if !shm.simRunning {
          var detected := ProcessesDetected(procs);
          if detected {
            SetToActiveTimeout();
            return;
          }
          state := Unavailable;
          checkForRfPid := true;
        }
      }
    }

    /** `set_state`. */
    method SetState(nav: NavResponse, procs: seq<Process>)
      modifies this
      ensures Model() == SetStateSpec(old(Model()), nav, procs)
    {
      var previous := state;
      match nav {
        case NavDict(code, loading) =>
          if code.GetOr(200) != 200 {
            state := Loading;
          } else {
            state := if loading then Loading else Ready;
          }
        case NavFalse =>
          var detected := ProcessesDetected(procs);
          if detected {
            state := WaitingForProcess;
            SetToActiveTimeout();
            return;
          }
          state := Unavailable;
          enableSharedMemCheck := None;
      }
      if previous != state {
        if state == Loading || state == WaitingForProcess {
          SetToActiveTimeout();
        } else if state == Unavailable {
          SetToIdleTimeout();
        } else if state == Ready && enableSharedMemCheck == None {
          enableSharedMemCheck := Some(true);
        }
      }
    }

    /** `check_connection`: one non-blocking step of the monitor. */
    method CheckConnection(now: real, env: Env)
      modifies this, worker
      ensures Model() == CheckConnectionSpec(old(Model()), now, env)
    {
      var response := worker.CheckResponse();
      if response.Some? {
        SetState(response.value, env.processes);
        return;
      }

      if enableSharedMemCheck == Some(true) {
        SharedMemoryCheck(env.processes, env.sharedMemory);
      }

      var timeout := Min(LONG_TIMEOUT, interval);
      if now - lastConnectionCheck < timeout {
        return;
      }

      if interval < LONG_TIMEOUT {
        interval := interval * GROWTH;
      }

      if webUiPort == 0 {
        if env.webUiPort.None? {
          return;
        }
        webUiPort := env.webUiPort.value;
      }

      if worker.requests == [] {
        lastConnectionCheck := now;
        worker.requests := worker.requests + [Get(NAV_STATE_URL)];
      }
    }
  }
}
