/**
 * Where the game is installed: a directory and the six files inside it the widget reads and
 * writes.  The installation is valid only once a directory holding the player settings and at
 * least one of the two video configurations has been set.
 *
 * Which paths exist on disk is an input (`onDisk`), and so is the answer of the Steam library
 * lookup.  Paths are strings; `Path()` (the empty path) is `NO_PATH`.
 */
module LmuLocation {
  import opened Common

  const RFACTOR_PLAYER := "UserData/player/Settings.JSON"
  const RFACTOR_CONTROLLER := "UserData/player/direct input.json"
  const RFACTOR_KEYBOARD := "UserData/player/keyboard.json"
  const RFACTOR_DXCONFIG := "UserData/Config_DX11.ini"
  const RFACTOR_DXVRCONFIG := "UserData/Config_DX11_VR.ini"
  const RFACTOR_VERSION_TXT := "Core/Version.txt"
  const LMU_APPID := "2399420"

  /** `Path()`, which renders as ".". */
  const NO_PATH := "."

  /** `path / name`. */
  function Under(path: string, name: string): string {
    path + "/" + name
  }

  /** Directory `p` exists and holds the player settings and one of the two video configurations. */
  predicate HoldsInstallation(p: string, onDisk: set<string>) {
    p in onDisk && Under(p, RFACTOR_PLAYER) in onDisk
    && (Under(p, RFACTOR_DXCONFIG) in onDisk || Under(p, RFACTOR_DXVRCONFIG) in onDisk)
  }

  /** The answer of the Steam library lookup: it raised, or it gave a path or None. */
  datatype SteamLookup = SteamRaised | SteamFound(path: Option<string>)

  /** The class attributes of `RfactorLocation`. */
  class RfactorLocation {
    var path: Option<string>
    var playerJson: string
    var controllerJson: string
    var keyboardJson: string
    var dxConfig: string
    var dxVrConfig: string
    var versionTxt: string
    var isValid: bool

    /** A valid location has its six files inside its directory. */
    predicate Consistent()
      reads this
    {
      isValid ==>
        path.Some?
        && playerJson == Under(path.value, RFACTOR_PLAYER)
        && controllerJson == Under(path.value, RFACTOR_CONTROLLER)
        && keyboardJson == Under(path.value, RFACTOR_KEYBOARD)
        && dxConfig == Under(path.value, RFACTOR_DXCONFIG)
        && dxVrConfig == Under(path.value, RFACTOR_DXVRCONFIG)
        && versionTxt == Under(path.value, RFACTOR_VERSION_TXT)
    }

    /** The attributes as the class declares them. */
    constructor ()
      ensures path == None && !isValid && Consistent()
      ensures playerJson == NO_PATH && controllerJson == NO_PATH && keyboardJson == NO_PATH
      ensures dxConfig == NO_PATH && dxVrConfig == NO_PATH && versionTxt == NO_PATH
    {
      path := None;
      playerJson, controllerJson, keyboardJson := NO_PATH, NO_PATH, NO_PATH;
      dxConfig, dxVrConfig, versionTxt := NO_PATH, NO_PATH, NO_PATH;
      isValid := false;
    }

    /** `overwrite_location`: every file path is reset, the location is invalid, the directory is the given one. */
    method OverwriteLocation(location: Option<string>)
      modifies this
      ensures path == location && !isValid && Consistent()
      ensures playerJson == NO_PATH && controllerJson == NO_PATH && keyboardJson == NO_PATH
      ensures dxConfig == NO_PATH && dxVrConfig == NO_PATH && versionTxt == NO_PATH
    {
      playerJson := NO_PATH;
      controllerJson := NO_PATH;
      keyboardJson := NO_PATH;
      dxConfig := NO_PATH;
      dxVrConfig := NO_PATH;
      versionTxt := NO_PATH;
      isValid := false;
      path := location;
    }

    /** The location is the valid installation in directory `p`. */
    predicate At(p: string)
      reads this
    {
      isValid && path == Some(p)
      && playerJson == Under(p, RFACTOR_PLAYER)
      && controllerJson == Under(p, RFACTOR_CONTROLLER)
      && keyboardJson == Under(p, RFACTOR_KEYBOARD)
      && dxConfig == Under(p, RFACTOR_DXCONFIG)
      && dxVrConfig == Under(p, RFACTOR_DXVRCONFIG)
      && versionTxt == Under(p, RFACTOR_VERSION_TXT)
    }

    /**
     * `set_location`: a directory that does not exist changes nothing; one that holds the player
     * settings and one of the video configurations becomes the valid location with its six
     * files; any other leaves everything as it was, a previous validity included.
     */
    method SetLocation(p: string, onDisk: set<string>)
      modifies this
      ensures if HoldsInstallation(p, onDisk) then At(p) else unchanged(this)
      ensures old(Consistent()) ==> Consistent()
    {
      if p !in onDisk {
        return;
      }
      var player := Under(p, RFACTOR_PLAYER);
      var controller := Under(p, RFACTOR_CONTROLLER);
      var keyboard := Under(p, RFACTOR_KEYBOARD);
      var dx := Under(p, RFACTOR_DXCONFIG);
      var dxVr := Under(p, RFACTOR_DXVRCONFIG);
      var version := Under(p, RFACTOR_VERSION_TXT);
      if player in onDisk && (dx in onDisk || dxVr in onDisk) {
        isValid := true;
        path := Some(p);
        playerJson := player;
        controllerJson := controller;
        keyboardJson := keyboard;
        dxConfig := dx;
        dxVrConfig := dxVr;
        versionTxt := version;
      }
    }

    /**
     * `get_location`: a directory already set that exists is used again; otherwise the Steam
     * lookup is asked, and a raised lookup or a lookup without an answer changes nothing.
     * The directory tried, if any, goes through `set_location`.
     */
    method GetLocation(onDisk: set<string>, steam: SteamLookup) returns (tried: Option<string>)
      modifies this
      ensures tried == (if old(path).Some? && old(path).value in onDisk then old(path)
                        else if steam.SteamFound? then steam.path else None)
      ensures if tried.Some? && HoldsInstallation(tried.value, onDisk) then At(tried.value) else unchanged(this)
      ensures old(Consistent()) ==> Consistent()
    {
      var p: Option<string>;
      if path.None? || path.value !in onDisk {
        match steam
        case SteamRaised =>
          return None;
        case SteamFound(found) =>
          p := found;
      } else {
        p := path;
      }
      tried := p;
      if p.Some? {
        SetLocation(p.value, onDisk);
      }
    }
  }
}
