/**
 * Launching the game from the interface: the launch method falls back to the last one used, a
 * server password is remembered or forgotten, and a plain launch waits for the game's menu.
 */
module AppLaunch {
  import opened Common
  import opened AppState
  import opened Rf2Connect
  import opened Rf2Command

  /** The fields of the `server_info` dict the launcher reads. */
  datatype ServerInfo = ServerInfo(id: string, password: Option<string>, passwordRemember: bool)

  /** The remembered passwords after a launch with `server`. */
  function PasswordsAfter(passwords: map<string, Option<string>>, server: Option<ServerInfo>)
    : (r: map<string, Option<string>>)
    ensures server.None? ==> r == passwords
    ensures server.Some? && server.value.passwordRemember ==>
              server.value.id in r && r[server.value.id] == server.value.password
    ensures server.Some? && !server.value.passwordRemember ==> server.value.id !in r
    ensures forall id :: server.Some? && id != server.value.id ==> (id in r <==> id in passwords)
    ensures forall id :: id in r && (server.None? || id != server.value.id) ==> id in passwords && r[id] == passwords[id]
  {
    if server.None? then passwords
    else if server.value.passwordRemember then passwords[server.value.id := server.value.password]
    else passwords - {server.value.id}
  }

  /** Launching with and without remembering for the same server: the second one forgets it again. */
  lemma RememberThenForget(passwords: map<string, Option<string>>, s: ServerInfo)
    requires s.passwordRemember
    ensures PasswordsAfter(PasswordsAfter(passwords, Some(s)), Some(s.(passwordRemember := false)))
         == PasswordsAfter(passwords, Some(s.(passwordRemember := false)))
  {
  }

  /**
   * `run_rfactor`.  Whether the installation is valid and whether the game could be started are
   * inputs; `effective` is the launch method used.
   */
  method RunRfactor(q: CommandQueue, settings: Settings, server: Option<ServerInfo>, launchMethod: Option<int>,
                    rfValid: bool, launchSucceeds: bool, now: real) returns (result: bool, effective: Option<int>)
    modifies q`queue, settings`serverPasswords, settings`lastLaunchMethod
    ensures effective == (if launchMethod.None? then old(settings.lastLaunchMethod) else launchMethod)
    ensures settings.lastLaunchMethod == effective
    ensures settings.serverPasswords == PasswordsAfter(old(settings.serverPasswords), server)
    ensures result == (rfValid && launchSucceeds)
    ensures Orders(q.queue) == Orders(old(q.queue))
              + (if rfValid && server.None? then [Order(WaitForState, Int(StateCode(Ready)), 10.0)] else [])
  {
    effective := launchMethod;
    if effective.None? {
      effective := settings.lastLaunchMethod;
    }
    if server.Some? && server.value.passwordRemember {
      settings.serverPasswords := settings.serverPasswords[server.value.id := server.value.password];
    } else if server.Some? && !server.value.passwordRemember {
      if server.value.id in settings.serverPasswords {
        settings.serverPasswords := settings.serverPasswords - {server.value.id};
      }
    }
    settings.lastLaunchMethod := effective;
    result := false;
    if rfValid {
      result := launchSucceeds;
      if server.None? {
        q.AppendNew(WaitForState, Int(StateCode(Ready)), Some(10.0), now);
      }
    }
  }
}
