/**
 * The process-wide signals and settings that the orchestrator reads and writes.
 *
 * The source keeps these as class attributes of event objects (`RfactorStatusEvent`,
 * `RfactorLiveEvent`, `RfactorQuitEvent`, `RecordBenchmarkEvent`, `HEARTBEAT_EVENT`,
 * `CLOSE_EVENT`) and of `AppSettings`.  Here they are two explicit objects, passed to every
 * operation that touches them.
 */
module AppState {
  import opened Common

  /** Last-value-wins signals between the orchestrator and the user interface. */
  class Events {
    /** The status line shown in the interface; "" is the cleared status. */
    var status: string
    /** The published live flag (`RfactorLiveEvent.was_live`). */
    var live: bool
    /** The interface asked the game to quit (`RfactorQuitEvent.event`). */
    var quitRequested: bool
    /** The last result of a quit request (`RfactorQuitEvent.quit_result`). */
    var quitResult: Option<bool>
    /** A benchmark recording was requested (`RecordBenchmarkEvent`). */
    var recordBenchmark: bool
    /** The interface sent a heartbeat (`HEARTBEAT_EVENT`). */
    var heartbeat: bool
    /** The application should close (`CLOSE_EVENT`). */
    var close: bool

    constructor ()
      ensures status == "" && !live && !quitRequested && quitResult == None
      ensures !recordBenchmark && !heartbeat && !close
    {
      status := "";
      live := false;
      quitRequested := false;
      quitResult := None;
      recordBenchmark := false;
      heartbeat := false;
      close := false;
    }
  }

  /** The fields of `AppSettings` that the orchestrator and its command builders use. */
  class Settings {
    /** The last seen game version string (`last_rf_version`). */
    var lastRfVersion: string
    /** Passwords remembered per server id; a stored password may itself be None. */
    var serverPasswords: map<string, Option<string>>
    /** The launch method used last (`last_launch_method`), None before the first launch. */
    var lastLaunchMethod: Option<int>
    /** Session settings handed from a preset to the next benchmark (`session_selection`). */
    var sessionSelection: seq<(string, int)>
    /** Content selection handed from a preset to the next benchmark (`content_selected`). */
    var contentSelected: map<string, string>
    /** A replay was started, so the previous graphics preset must be restored later. */
    var replayPlaying: bool

    constructor ()
      ensures lastRfVersion == "" && serverPasswords == map[] && lastLaunchMethod == None
      ensures sessionSelection == [] && contentSelected == map[] && !replayPlaying
    {
      lastRfVersion := "";
      serverPasswords := map[];
      lastLaunchMethod := None;
      sessionSelection := [];
      contentSelected := map[];
      replayPlaying := false;
    }
  }
}
