/**
 * The ReShade OpenXR API layer: the apps list of the layer's INI file, and the layer's DWORD
 * value under the OpenXR implicit API layer registry key of the current user
 * (0 = layer enabled, anything else = layer disabled).
 */
module OpenXr {
  import opened Common

  /** The UTF-8 byte order mark, once decoded. */
  const UTF8_BOM: char := '﻿'
  const APPS_PREFIX := "Apps="
  /** Three CRLF line ends close the rewritten file. */
  const APPS_EOF := "\r\n\r\n\r\n"

  /** A path can be listed and read back: non-empty, no separator, no line-end character. */
  predicate ListablePath(p: string) {
    p != "" && ',' !in p && '\r' !in p && '\n' !in p
  }

  function StripBom(data: string): (r: string)
    ensures data != [] && data[0] == UTF8_BOM ==> r == data[1..]
    ensures (data == [] || data[0] != UTF8_BOM) ==> r == data
  {
    if data != [] && data[0] == UTF8_BOM then data[1..] else data
  }

  /**
   * The paths listed in the file: the text after its first five characters ("Apps="),
   * line ends removed, split on commas, empty entries dropped.
   */
  function ListedPaths(data: string): (r: seq<string>)
    ensures forall i :: 0 <= i < |r| ==> ListablePath(r[i])
  {
    var text := StripBom(data);
    var pathsText := if |text| >= 5 then text[5..] else "";
    if pathsText == [] then []
    else
      var cleaned := RemoveChar(RemoveChar(pathsText, '\n'), '\r');
      var r := NonEmpty(Split(cleaned, ','));
      assert forall i :: 0 <= i < |r| ==> ListablePath(r[i]) by {
        forall i | 0 <= i < |r|
          ensures ListablePath(r[i])
        {
          assert r[i] in Split(cleaned, ',');
          var k :| 0 <= k < |Split(cleaned, ',')| && Split(cleaned, ',')[k] == r[i];
          if '\n' in r[i] {
            SplitChars(cleaned, ',', k, '\n');
          }
          if '\r' in r[i] {
            SplitChars(cleaned, ',', k, '\r');
          }
        }
      }
      r
  }

  /** What the file holds after a rewrite with `paths`. */
  function AppsIniText(paths: seq<string>): string {
    [UTF8_BOM] + APPS_PREFIX + Join(paths, ",") + APPS_EOF
  }

  /** What updating the apps list does: the file is missing, the path is already listed, or the file is rewritten. */
  datatype AppsUpdate = FileMissing | AlreadyListed | Rewritten(content: string)

  /** `update_reshade_openxr_apps_ini`: list `exe` in the apps file unless it is there already. */
  function UpdateAppsIni(file: Option<string>, exe: string): (r: AppsUpdate)
    ensures file.None? <==> r.FileMissing?
    ensures file.Some? && exe in ListedPaths(file.value) <==> r.AlreadyListed?
    ensures r.Rewritten? ==> r.content == AppsIniText(ListedPaths(file.value) + [exe])
  {
    match file
    case None => FileMissing
    case Some(data) =>
      var paths := ListedPaths(data);
      if exe in paths then AlreadyListed else Rewritten(AppsIniText(paths + [exe]))
  }

  /** The update reports success unless the file is missing. */
  function UpdateSucceeds(u: AppsUpdate): bool {
    !u.FileMissing?
  }

  /** Removing the line ends from text without any, followed by the closing line ends, gives the text. */
  lemma LineEndsRemoved(joined: string)
    requires '\n' !in joined && '\r' !in joined
    ensures RemoveChar(RemoveChar(joined + APPS_EOF, '\n'), '\r') == joined
  {
    RemoveCharAppend(joined, APPS_EOF, '\n');
    RemoveCharAbsent(joined, '\n');
    EofNewlinesRemoved();
    RemoveCharAppend(joined, "\r\r\r", '\r');
    RemoveCharAbsent(joined, '\r');
    CarriageReturnsRemoved();
  }

  lemma EofNewlinesRemoved()
    ensures RemoveChar(APPS_EOF, '\n') == "\r\r\r"
  {
  }

  lemma CarriageReturnsRemoved()
    ensures RemoveChar("\r\r\r", '\r') == ""
  {
  }

  /** The text after the prefix of a rewritten file is the joined paths and the closing line ends. */
  lemma AppsIniTail(paths: seq<string>)
    ensures |StripBom(AppsIniText(paths))| >= 5
    ensures StripBom(AppsIniText(paths))[5..] == Join(paths, ",") + APPS_EOF
  {
    var data := AppsIniText(paths);
    assert StripBom(data) == APPS_PREFIX + Join(paths, ",") + APPS_EOF;
  }

  /** Reading a rewritten file lists exactly the paths that were written. */
  lemma ListedPathsOfText(paths: seq<string>)
    requires |paths| >= 1
    requires forall i :: 0 <= i < |paths| ==> ListablePath(paths[i])
    ensures ListedPaths(AppsIniText(paths)) == paths
  {
    var joined := Join(paths, ",");
    AppsIniTail(paths);
    JoinFree(paths, ",", '\n');
    JoinFree(paths, ",", '\r');
    LineEndsRemoved(joined);
    SplitJoin(paths, ',');
    NonEmptyAll(paths);
  }

  /** A rewrite keeps every listed path, in order, and adds `exe` at the end. */
  lemma UpdateKeepsPaths(data: string, exe: string)
    requires ListablePath(exe)
    requires UpdateAppsIni(Some(data), exe).Rewritten?
    ensures ListedPaths(UpdateAppsIni(Some(data), exe).content) == ListedPaths(data) + [exe]
  {
    ListedPathsOfText(ListedPaths(data) + [exe]);
  }

  /** Updating twice with the same path: the second update finds it listed and writes nothing. */
  lemma UpdateIdempotent(data: string, exe: string)
    requires ListablePath(exe)
    ensures UpdateAppsIni(Some(data), exe).Rewritten? ==>
              UpdateAppsIni(Some(UpdateAppsIni(Some(data), exe).content), exe) == AlreadyListed
  {
    if UpdateAppsIni(Some(data), exe).Rewritten? {
      UpdateKeepsPaths(data, exe);
    }
  }

  /** The apps INI file of the layer; `content` is None while the file does not exist. */
  class AppsIniFile {
    var content: Option<string>

    constructor(content: Option<string>)
      ensures this.content == content
    {
      this.content := content;
    }

    /** `update_reshade_openxr_apps_ini`, with the file's own state. */
    method Update(exe: string) returns (ok: bool)
      modifies this
      ensures ok == UpdateSucceeds(UpdateAppsIni(old(content), exe))
      ensures content == (match UpdateAppsIni(old(content), exe)
                          case Rewritten(text) => Some(text)
                          case _ => old(content))
    {
      var u := UpdateAppsIni(content, exe);
      if u.FileMissing? {
        return false;
      }
      if u.Rewritten? {
        content := Some(u.content);
      }
      return true;
    }
  }

  /**
   * What the registry offers on this run: whether the registry module is available at all
   * (it is on Windows only) and which of the calls raise an OSError.
   */
  datatype RegistryEnv = RegistryEnv(available: bool, openFails: bool, createFails: bool, setFails: bool,
                                     deleteFails: bool)

  /** The implicit API layer key: whether it exists, and its DWORD values by name. */
  datatype LayerKey = LayerKey(present: bool, values: map<string, int>)

  /** Opening the key succeeds when the key exists and the call does not fail otherwise. */
  predicate Opens(env: RegistryEnv, k: LayerKey) {
    k.present && !env.openFails
  }

  /**
   * `is_openxr_layer_installed`: Some(0) when the registry cannot be used, Some(1) when the layer's
   * value is 0, Some(-1) for any other value; None when the key opens but holds no value for the
   * layer (the source falls off its end there and returns None).
   */
  function Installed(env: RegistryEnv, k: LayerKey, name: string): (r: Option<int>)
    ensures r.Some? ==> r.value in {-1, 0, 1}
    ensures r == Some(1) <==> env.available && Opens(env, k) && name in k.values && k.values[name] == 0
    ensures r == Some(-1) <==> env.available && Opens(env, k) && name in k.values && k.values[name] != 0
    ensures r == None <==> env.available && Opens(env, k) && name !in k.values
  {
    if !env.available || !Opens(env, k) then Some(0)
    else if name in k.values then Some(if k.values[name] == 0 then 1 else -1)
    else None
  }

  /**
   * `remove_reshade_openxr_layer`: delete the layer's value, if present, from a key that opens.
   * Only the opening and the lookup are guarded: a failing delete is not caught, so its OSError
   * reaches the caller, written here as None.
   */
  function RemoveLayer(env: RegistryEnv, k: LayerKey, name: string): (r: (Option<bool>, LayerKey))
    ensures r.0 == Some(true) <==> env.available && Opens(env, k) && !(name in k.values && env.deleteFails)
    ensures r.0 == Some(false) <==> !env.available || !Opens(env, k)
    ensures r.0 == None <==> env.available && Opens(env, k) && name in k.values && env.deleteFails
    ensures r.0 == Some(true) ==> r.1 == k.(values := k.values - {name})
    ensures r.0 != Some(true) ==> r.1 == k
  {
    if !env.available || !Opens(env, k) then (Some(false), k)
    else if name in k.values && env.deleteFails then (None, k)
    else (Some(true), k.(values := k.values - {name}))
  }

  /**
   * The registry half of `setup_reshade_openxr_layer`: create the key, then write 0 (enable) or 1
   * (disable) unless the layer is already enabled and should stay so.
   */
  function SetupLayer(env: RegistryEnv, k: LayerKey, name: string, enable: bool): (r: (bool, LayerKey))
    ensures r.0 <==> env.available && !env.createFails &&
                     ((enable && name in k.values && k.values[name] == 0) || !env.setFails)
    ensures !env.available || env.createFails ==> r.1 == k
    ensures env.available && !env.createFails ==> r.1.present
    ensures r.0 ==> name in r.1.values && (r.1.values[name] == 0 <==> enable)
    ensures forall n :: n in k.values && n != name ==> n in r.1.values && r.1.values[n] == k.values[n]
    ensures forall n :: n in r.1.values ==> n in k.values || n == name
  {
    if !env.available || env.createFails then (false, k)
    else
      var created := k.(present := true);
      if name in created.values && created.values[name] == 0 && enable then (true, created)
      else if env.setFails then (false, created)
      else (true, created.(values := created.values[name := if enable then 0 else 1]))
  }

  /** After a successful setup, the layer reads as enabled or disabled, as asked. */
  lemma SetupThenInstalled(env: RegistryEnv, k: LayerKey, name: string, enable: bool)
    requires SetupLayer(env, k, name, enable).0 && !env.openFails
    ensures Installed(env, SetupLayer(env, k, name, enable).1, name) == Some(if enable then 1 else -1)
  {
  }

  /** A second setup with the same wish changes nothing more. */
  lemma SetupIdempotent(env: RegistryEnv, k: LayerKey, name: string, enable: bool)
    requires SetupLayer(env, k, name, enable).0
    ensures SetupLayer(env, SetupLayer(env, k, name, enable).1, name, enable) ==
            (true, SetupLayer(env, k, name, enable).1)
  {
    var k1 := SetupLayer(env, k, name, enable).1;
    if !enable && !(name in k.values && k.values[name] == 0 && enable) {
      assert k1.values[name := 1] == k1.values;
    }
  }

  /**
   * After a successful removal the layer has no value any more: the installation check falls
   * through (None), which callers comparing with 1 read as "not installed".
   */
  lemma RemoveThenNotInstalled(env: RegistryEnv, k: LayerKey, name: string)
    requires RemoveLayer(env, k, name).0 == Some(true)
    ensures Installed(env, RemoveLayer(env, k, name).1, name) == None
  {
  }

  /** The registry as the application sees it. */
  class Registry {
    var key: LayerKey

    constructor(key: LayerKey)
      ensures this.key == key
    {
      this.key := key;
    }

    method IsInstalled(env: RegistryEnv, name: string) returns (r: Option<int>)
      ensures r == Installed(env, key, name)
    {
      if !env.available {
        return Some(0);
      }
      if !Opens(env, key) {
        return Some(0);
      }
      if name in key.values {
        if key.values[name] == 0 {
          return Some(1);
        }
        return Some(-1);
      }
      return None;
    }

    /** The answer is None when the delete raises and the error leaves the call. */
    method Remove(env: RegistryEnv, name: string) returns (ok: Option<bool>)
      modifies this
      ensures (ok, key) == RemoveLayer(env, old(key), name)
    {
      if !env.available {
        return Some(false);
      }
      if !Opens(env, key) {
        return Some(false);
      }
      if name in key.values {
        if env.deleteFails {
          return None;
        }
        key := key.(values := key.values - {name});
      } else {
        assert key.values - {name} == key.values;
      }
      return Some(true);
    }

    /**
     * `setup_reshade_openxr_layer`: list the game in the apps file when one is given (its result
     * is ignored), then set up the registry value.
     */
    method Setup(env: RegistryEnv, name: string, enable: bool, exe: Option<string>, apps: AppsIniFile)
      returns (ok: bool)
      modifies this, apps
      ensures (ok, key) == SetupLayer(env, old(key), name, enable)
      ensures env.available && exe.Some? && UpdateAppsIni(old(apps.content), exe.value).Rewritten? ==>
                apps.content == Some(UpdateAppsIni(old(apps.content), exe.value).content)
      ensures !env.available || exe.None? || !UpdateAppsIni(old(apps.content), exe.value).Rewritten? ==>
                apps.content == old(apps.content)
    {
      if !env.available {
        return false;
      }
      if exe.Some? {
        var _ := apps.Update(exe.value);
      }
      if env.createFails {
        return false;
      }
      key := key.(present := true);
      if name in key.values && key.values[name] == 0 && enable {
        return true;
      }
      if env.setFails {
        return false;
      }
      key := key.(values := key.values[name := if enable then 0 else 1]);
      return true;
    }
  }
}
