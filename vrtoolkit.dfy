/**
 * The VRToolkit ReShade mod of a game installation: the toolkit's setting tables, the exchange
 * between the preset's options and those tables in both directions, reading and writing the
 * toolkit's preset file, the ReShade INI rewrite, and installing or removing the mod.
 */
module VrToolkit {
  import opened Common
  import opened VrToolkitIni
  import opened OpenXr

  // ---------------------------------------------------------------------------------------
  // The default tables (floats in millionths)

  const FAS_DEFAULTS: Dict :=
    [("FAS_Strength", FloatVal(125000000)), ("FAS_Radius", FloatVal(100000)), ("FAS_Clamp", FloatVal(525000))]
  const DITHER_DEFAULTS: Dict := [("DitheringStrength", FloatVal(375000))]
  const MASK_DEFAULTS: Dict :=
    [("CircularMaskSize", FloatVal(300000)), ("CircularMaskSmoothness", FloatVal(5000000)),
     ("CircularMaskHorizontalOffset", FloatVal(300000))]
  const AA_DEFAULTS: Dict :=
    [("Subpix", FloatVal(1000000)), ("EdgeThreshold", FloatVal(125000)), ("EdgeThresholdMin", FloatVal(0))]
  const CAS_DEFAULTS: Dict :=
    [("CAS_Contrast", FloatVal(0)), ("CAS_Sharpening", FloatVal(2500000)), ("CAS_Contrast_Clamp", FloatVal(100000))]
  const CC_DEFAULTS: Dict := [("CS_Contrast", FloatVal(0)), ("CS_Saturation", FloatVal(1000000))]
  const LUT_DEFAULTS: Dict :=
    [("LUT_AmountChroma", FloatVal(1000000)), ("LUT_AmountLuma", FloatVal(1000000)),
     ("LUT_TextureName", Str("\"lut.png\""))]
  const CLARITY_DEFAULTS: Dict :=
    [("ClarityRadiusTwo", IntVal(1)), ("ClarityOffsetTwo", FloatVal(2000000)), ("ClarityBlendModeTwo", IntVal(2)),
     ("ClarityBlendIfDarkTwo", IntVal(50)), ("ClarityBlendIfLightTwo", IntVal(205)), ("BlendIfRange", FloatVal(200000)),
     ("ClarityStrengthTwo", FloatVal(400000)), ("ClarityDarkIntensityTwo", FloatVal(400000)),
     ("ClarityLightIntensityTwo", FloatVal(0)), ("DitherStrength", FloatVal(1000000)), ("MaskContrast", FloatVal(0))]

  /** The VRToolkit tables, in the order their defaults are merged. */
  const VRT_TABLES: seq<Dict> :=
    [FAS_DEFAULTS, DITHER_DEFAULTS, MASK_DEFAULTS, AA_DEFAULTS, CAS_DEFAULTS, CC_DEFAULTS, LUT_DEFAULTS]

  /** The class-level preprocessor definitions every toolkit starts from. */
  const PREPROCESSOR_DEFAULTS: Dict :=
    [("VRT_SHARPENING_MODE", IntVal(0)), ("VRT_USE_CENTER_MASK", IntVal(0)), ("VRT_DITHERING", IntVal(0)),
     ("VRT_COLOR_CORRECTION_MODE", IntVal(0)), ("VRT_ANTIALIASING_MODE", IntVal(0)),
     ("LUT_TextureName", Str("\"lut.png\"")), ("ClarityRGBMode", IntVal(0)), ("UseClarityDebug", IntVal(0))]

  // ---------------------------------------------------------------------------------------
  // Dict updates

  function KeySet(d: Dict): set<string> {
    set k | k in Keys(d)
  }

  /** Python `d[k] = v`: a present key keeps its place, a new key goes at the end. */
  function Put(d: Dict, k: string, v: Value): (r: Dict)
    ensures Keys(r) == if k in Keys(d) then Keys(d) else Keys(d) + [k]
  {
    if k in Keys(d) then Set(d, k, v)
    else
      assert Keys(d + [(k, v)]) == Keys(d) + [k];
      d + [(k, v)]
  }

  lemma {:induction false} LookupAppend(d: Dict, e: (string, Value), q: string)
    ensures Lookup(d + [e], q) == if q in Keys(d) then Lookup(d, q) else if q == e.0 then Some(e.1) else None
    decreases |d|
  {
    if d != [] {
      assert (d + [e])[1..] == d[1..] + [e];
      assert Keys(d) == [d[0].0] + Keys(d[1..]);
      LookupAppend(d[1..], e, q);
    }
  }

  /** A put is seen by a lookup of its key and by no other lookup. */
  lemma PutLookup(d: Dict, k: string, v: Value, q: string)
    ensures Lookup(Put(d, k, v), q) == if q == k then Some(v) else Lookup(d, q)
  {
    if k in Keys(d) {
      LookupSet(d, k, v, q);
    } else {
      LookupAppend(d, (k, v), q);
      if q != k && q !in Keys(d) {
        assert Lookup(d, q) == None;
      }
    }
  }

  lemma PutUnique(d: Dict, k: string, v: Value)
    requires UniqueKeys(d)
    ensures UniqueKeys(Put(d, k, v))
  {
    var r := Put(d, k, v);
    if k in Keys(d) {
      SameKeysUnique(d, r);
    } else {
      forall i, j | 0 <= i < j < |r|
        ensures r[i].0 != r[j].0
      {
        if j == |d| {
          assert r[i].0 == Keys(d)[i];
        }
      }
    }
  }

  /** Python `d.update(t)`: the entries of `t` put into `d`, in order. */
  function PutAll(d: Dict, t: Dict): (r: Dict)
    decreases |t|
  {
    if t == [] then d else PutAll(Put(d, t[0].0, t[0].1), t[1..])
  }

  lemma {:induction false} PutAllUnique(d: Dict, t: Dict)
    requires UniqueKeys(d)
    ensures UniqueKeys(PutAll(d, t))
    decreases |t|
  {
    if t != [] {
      PutUnique(d, t[0].0, t[0].1);
      PutAllUnique(Put(d, t[0].0, t[0].1), t[1..]);
    }
  }

  /**
   * After an update with a table of unique keys, a key of the table has the table's value and
   * every other key keeps its value.
   */
  lemma {:induction false} PutAllLookup(d: Dict, t: Dict, q: string)
    requires UniqueKeys(t)
    ensures Lookup(PutAll(d, t), q) == if q in Keys(t) then Lookup(t, q) else Lookup(d, q)
    decreases |t|
  {
    if t != [] {
      var d1 := Put(d, t[0].0, t[0].1);
      assert Keys(t) == [t[0].0] + Keys(t[1..]);
      assert UniqueKeys(t[1..]);
      PutAllLookup(d1, t[1..], q);
      PutLookup(d, t[0].0, t[0].1, q);
      if q == t[0].0 {
        assert q !in Keys(t[1..]) by {
          forall i | 0 <= i < |t[1..]|
            ensures Keys(t[1..])[i] != q
          {
            assert t[1..][i] == t[i + 1];
          }
        }
      }
    }
  }

  /** Python `d.update(t)` for each table in turn. */
  function PutTables(d: Dict, tables: seq<Dict>): Dict
    decreases |tables|
  {
    if tables == [] then d else PutTables(PutAll(d, tables[0]), tables[1..])
  }

  lemma {:induction false} PutTablesUnique(d: Dict, tables: seq<Dict>)
    requires UniqueKeys(d)
    ensures UniqueKeys(PutTables(d, tables))
    decreases |tables|
  {
    if tables != [] {
      PutAllUnique(d, tables[0]);
      PutTablesUnique(PutAll(d, tables[0]), tables[1..]);
    }
  }

  /** After an update the keys are those of the dict and those of the table. */
  lemma {:induction false} PutAllKeys(d: Dict, t: Dict, k: string)
    ensures k in Keys(PutAll(d, t)) <==> k in Keys(d) || k in Keys(t)
    decreases |t|
  {
    if t != [] {
      var d1 := Put(d, t[0].0, t[0].1);
      assert k in Keys(d1) <==> k in Keys(d) || k == t[0].0;
      PutAllKeys(d1, t[1..], k);
      assert Keys(t) == [t[0].0] + Keys(t[1..]);
    }
  }

  /** `k` is a key of one of the tables. */
  predicate InTables(k: string, tables: seq<Dict>)
    decreases |tables|
  {
    tables != [] && (k in Keys(tables[0]) || InTables(k, tables[1..]))
  }

  lemma {:induction false} PutTablesKeys(d: Dict, tables: seq<Dict>, k: string)
    ensures k in Keys(PutTables(d, tables)) <==> k in Keys(d) || InTables(k, tables)
    decreases |tables|
  {
    if tables != [] {
      PutAllKeys(d, tables[0], k);
      PutTablesKeys(PutAll(d, tables[0]), tables[1..], k);
    }
  }

  /** An update with a table that lacks a key leaves that key's value alone. */
  lemma {:induction false} PutAllLookupOutside(d: Dict, t: Dict, q: string)
    requires q !in Keys(t)
    ensures Lookup(PutAll(d, t), q) == Lookup(d, q)
    decreases |t|
  {
    if t != [] {
      assert Keys(t) == [t[0].0] + Keys(t[1..]);
      PutLookup(d, t[0].0, t[0].1, q);
      PutAllLookupOutside(Put(d, t[0].0, t[0].1), t[1..], q);
    }
  }

  lemma {:induction false} PutTablesLookupOutside(d: Dict, tables: seq<Dict>, q: string)
    requires !InTables(q, tables)
    ensures Lookup(PutTables(d, tables), q) == Lookup(d, q)
    decreases |tables|
  {
    if tables != [] {
      PutAllLookupOutside(d, tables[0], q);
      PutTablesLookupOutside(PutAll(d, tables[0]), tables[1..], q);
    }
  }

  /** The setting tables of the graphics definitions: VRToolkit's seven, and Clarity's. */
  datatype Graphics = Graphics(vrtTables: seq<Dict>, clarity: Dict)

  const GRAPHICS := Graphics(VRT_TABLES, CLARITY_DEFAULTS)

  /** The VRToolkit settings merged with `dict.update`, then the settings of both shaders. */
  function VrtSettings(g: Graphics): Dict {
    PutTables([], g.vrtTables)
  }

  function AllSettings(g: Graphics): Dict {
    PutAll(VrtSettings(g), g.clarity)
  }

  /** The merged settings hold exactly the keys of the tables. */
  lemma AllSettingsKeys(g: Graphics, k: string)
    ensures k in Keys(VrtSettings(g)) <==> InTables(k, g.vrtTables)
    ensures k in Keys(AllSettings(g)) <==> InTables(k, g.vrtTables) || k in Keys(g.clarity)
  {
    PutTablesKeys([], g.vrtTables, k);
    PutAllKeys(VrtSettings(g), g.clarity, k);
  }

  /** A key that only the first VRToolkit table has keeps that table's value. */
  lemma FirstTableLookup(g: Graphics, q: string)
    requires g.vrtTables != [] && UniqueKeys(g.vrtTables[0])
    requires !InTables(q, g.vrtTables[1..]) && q !in Keys(g.clarity)
    ensures Lookup(AllSettings(g), q) == Lookup(g.vrtTables[0], q)
  {
    PutAllLookup([], g.vrtTables[0], q);
    PutTablesLookupOutside(PutAll([], g.vrtTables[0]), g.vrtTables[1..], q);
    PutAllLookupOutside(VrtSettings(g), g.clarity, q);
  }

  /** The merged settings are a dict: every key once. */
  lemma AllSettingsUnique(g: Graphics)
    ensures UniqueKeys(AllSettings(g))
  {
    PutTablesUnique([], g.vrtTables);
    PutAllUnique(VrtSettings(g), g.clarity);
  }

  // ---------------------------------------------------------------------------------------
  // The preset's options and the exchange with the tables

  /** One option of the preset, with the flag saying whether the game's files hold it. */
  datatype PresetOption = PresetOption(key: string, value: Value, existsInRf: bool)

  /** A group of options; `isClarity` marks the Clarity settings group. */
  datatype OptionGroup = OptionGroup(isClarity: bool, options: seq<PresetOption>)

  /** The three switches the exchange returns. */
  datatype Flags = Flags(useReshade: Value, useClarity: Value, useOpenxr: Value)

  const NO_FLAGS := Flags(Bool(false), Bool(false), Bool(false))

  /** The switches and the two tables, as the exchange goes along. */
  datatype Sync = Sync(flags: Flags, preprocessor: Dict, ini: Dict)

  /** The keys of the three switches. */
  predicate Switch(key: string) {
    key == "use_reshade" || key == "use_openxr" || key == "use_clarity"
  }

  /** From the preset: a switch takes the option's value, else the preprocessor, else the settings. */
  function TakeOption(st: Sync, o: PresetOption): (r: Sync)
    ensures Keys(r.preprocessor) == Keys(st.preprocessor) && Keys(r.ini) == Keys(st.ini)
  {
    if o.key == "use_reshade" then st.(flags := st.flags.(useReshade := o.value))
    else if o.key == "use_openxr" then st.(flags := st.flags.(useOpenxr := o.value))
    else if o.key == "use_clarity" then st.(flags := st.flags.(useClarity := o.value))
    else if o.key in Keys(st.preprocessor) then st.(preprocessor := Set(st.preprocessor, o.key, o.value))
    else if o.key in Keys(st.ini) then st.(ini := Set(st.ini, o.key, o.value))
    else st
  }

  /** The options of a group taken one after the other, the first `n` of them. */
  function TakePrefix(st: Sync, opts: seq<PresetOption>, n: nat): (r: Sync)
    requires n <= |opts|
    ensures Keys(r.preprocessor) == Keys(st.preprocessor) && Keys(r.ini) == Keys(st.ini)
    decreases n
  {
    if n == 0 then st else TakeOption(TakePrefix(st, opts, n - 1), opts[n - 1])
  }

  /**
   * From the files: ReShade is on; OpenXR is on when the layer is active; Clarity is on when the
   * preset names it; any other option shows the preprocessor's value, else the setting's.
   */
  function ShowOption(o: PresetOption, pre: Dict, ini: Dict, clarityFound: bool, layerActive: bool): (r: PresetOption)
    ensures r.key == o.key
    ensures r.existsInRf <==> o.existsInRf || Switch(o.key) || o.key in Keys(pre) || o.key in Keys(ini)
    ensures o.key == "use_reshade" && o.key !in Keys(pre) && o.key !in Keys(ini) ==> r.value == Bool(true)
    ensures o.key == "use_openxr" && o.key !in Keys(pre) && o.key !in Keys(ini) ==> r.value == Bool(layerActive)
    ensures o.key == "use_clarity" ==> r.value == Bool(clarityFound)
    ensures !Switch(o.key) && o.key in Keys(pre) ==> Lookup(pre, o.key) == Some(r.value)
    ensures !Switch(o.key) && o.key !in Keys(pre) && o.key in Keys(ini) ==> Lookup(ini, o.key) == Some(r.value)
    ensures !Switch(o.key) && o.key !in Keys(pre) && o.key !in Keys(ini) ==> r == o
  {
    var a := if o.key == "use_reshade" then o.(value := Bool(true), existsInRf := true) else o;
    var b := if a.key == "use_openxr" then a.(value := Bool(layerActive), existsInRf := true) else a;
    if b.key == "use_clarity" then b.(value := Bool(clarityFound), existsInRf := true)
    else if b.key in Keys(pre) then b.(value := Lookup(pre, b.key).value, existsInRf := true)
    else if b.key in Keys(ini) then b.(value := Lookup(ini, b.key).value, existsInRf := true)
    else b
  }

  function ShowOptions(opts: seq<PresetOption>, pre: Dict, ini: Dict, clarityFound: bool, layerActive: bool)
    : (r: seq<PresetOption>)
    ensures |r| == |opts| && forall j :: 0 <= j < |opts| ==> r[j] == ShowOption(opts[j], pre, ini, clarityFound, layerActive)
  {
    seq(|opts|, j requires 0 <= j < |opts| => ShowOption(opts[j], pre, ini, clarityFound, layerActive))
  }

  /** A group whose options the game's files do not hold. */
  function Absent(g: OptionGroup): (r: OptionGroup)
    ensures r.isClarity == g.isClarity && |r.options| == |g.options|
    ensures forall j :: 0 <= j < |g.options| ==> r.options[j] == g.options[j].(existsInRf := false)
  {
    g.(options := seq(|g.options|, j requires 0 <= j < |g.options| => g.options[j].(existsInRf := false)))
  }

  /**
   * One group: the Clarity group, while Clarity is not switched on, is marked absent and
   * skipped; any other group is shown from the files or taken from the preset.
   */
  function SyncGroup(fromDisk: bool, st: Sync, g: OptionGroup, clarityFound: bool, layerActive: bool)
    : (r: (Sync, OptionGroup))
  {
    if g.isClarity && !Truthy(st.flags.useClarity) then (st, Absent(g))
    else if fromDisk then (st, g.(options := ShowOptions(g.options, st.preprocessor, st.ini, clarityFound, layerActive)))
    else (TakePrefix(st, g.options, |g.options|), g)
  }

  /** `_update_options` over the first `n` groups: the switches and tables, and the groups as they are left. */
  function SyncPrefix(fromDisk: bool, st0: Sync, gs: seq<OptionGroup>, n: nat, clarityFound: bool, layerActive: bool)
    : (r: (Sync, seq<OptionGroup>))
    requires n <= |gs|
    ensures |r.1| == n
    decreases n
  {
    if n == 0 then (st0, [])
    else
      var p := SyncPrefix(fromDisk, st0, gs, n - 1, clarityFound, layerActive);
      var s := SyncGroup(fromDisk, p.0, gs[n - 1], clarityFound, layerActive);
      (s.0, p.1 + [s.1])
  }

  /** The whole exchange. */
  function SyncAll(fromDisk: bool, st0: Sync, gs: seq<OptionGroup>, clarityFound: bool, layerActive: bool)
    : (r: (Sync, seq<OptionGroup>))
    ensures |r.1| == |gs|
  {
    SyncPrefix(fromDisk, st0, gs, |gs|, clarityFound, layerActive)
  }

  /** Reading from the files leaves the switches off and the tables as they are. */
  lemma {:induction false} DiskKeepsTables(st0: Sync, gs: seq<OptionGroup>, n: nat, clarityFound: bool, layerActive: bool)
    requires n <= |gs| && st0.flags == NO_FLAGS
    ensures SyncPrefix(true, st0, gs, n, clarityFound, layerActive).0 == st0
    decreases n
  {
    if n > 0 {
      DiskKeepsTables(st0, gs, n - 1, clarityFound, layerActive);
    }
  }

  /**
   * Reading from the files shows every option of the other groups from the tables, and marks
   * every option of the Clarity group absent: the Clarity switch is never on in that direction.
   */
  lemma {:induction false} DiskShowsOptions(st0: Sync, gs: seq<OptionGroup>, n: nat, clarityFound: bool, layerActive: bool)
    requires n <= |gs| && st0.flags == NO_FLAGS
    ensures var r := SyncPrefix(true, st0, gs, n, clarityFound, layerActive).1;
            forall k :: 0 <= k < n ==>
              r[k] == if gs[k].isClarity then Absent(gs[k])
                      else gs[k].(options := ShowOptions(gs[k].options, st0.preprocessor, st0.ini, clarityFound, layerActive))
    decreases n
  {
    if n > 0 {
      DiskShowsOptions(st0, gs, n - 1, clarityFound, layerActive);
      DiskKeepsTables(st0, gs, n - 1, clarityFound, layerActive);
    }
  }

  /**
   * Taking from the preset changes no option's key or value; a group is either left as it was
   * or, being the Clarity group, marked absent.
   */
  lemma {:induction false} PresetKeepsOptions(st0: Sync, gs: seq<OptionGroup>, n: nat, clarityFound: bool, layerActive: bool)
    requires n <= |gs|
    ensures var r := SyncPrefix(false, st0, gs, n, clarityFound, layerActive).1;
            forall k :: 0 <= k < n ==> r[k] == gs[k] || (gs[k].isClarity && r[k] == Absent(gs[k]))
    decreases n
  {
    if n > 0 {
      PresetKeepsOptions(st0, gs, n - 1, clarityFound, layerActive);
    }
  }

  /** Neither direction adds or removes a key of either table. */
  lemma {:induction false} SyncKeepsKeys(fromDisk: bool, st0: Sync, gs: seq<OptionGroup>, n: nat, clarityFound: bool,
                                         layerActive: bool)
    requires n <= |gs|
    ensures var s := SyncPrefix(fromDisk, st0, gs, n, clarityFound, layerActive).0;
            Keys(s.preprocessor) == Keys(st0.preprocessor) && Keys(s.ini) == Keys(st0.ini)
    decreases n
  {
    if n > 0 {
      SyncKeepsKeys(fromDisk, st0, gs, n - 1, clarityFound, layerActive);
    }
  }

  /**
   * An option taken from the preset into a table shows back from that table as it was, now
   * marked as held by the files.
   */
  lemma TakeThenShow(st: Sync, o: PresetOption, clarityFound: bool, layerActive: bool)
    requires !Switch(o.key)
    requires o.key in Keys(st.preprocessor) || o.key in Keys(st.ini)
    ensures var t := TakeOption(st, o);
            ShowOption(o, t.preprocessor, t.ini, clarityFound, layerActive) == o.(existsInRf := true)
  {
    var t := TakeOption(st, o);
    if o.key in Keys(st.preprocessor) {
      LookupSet(st.preprocessor, o.key, o.value, o.key);
    } else {
      LookupSet(st.ini, o.key, o.value, o.key);
    }
  }

  // ---------------------------------------------------------------------------------------
  // The ReShade INI and the removal of ReShade's directories

  /** `_update_reshade_ini`: every line rewritten on its own, in place. */
  function ReshadeIniLines(lines: seq<string>): (r: seq<string>)
    ensures |r| == |lines| && forall i :: 0 <= i < |lines| ==> r[i] == ReshadeIniLine(lines[i])
  {
    seq(|lines|, i requires 0 <= i < |lines| => ReshadeIniLine(lines[i]))
  }

  /**
   * The rewrite keeps the number and order of the lines, touches only the preset path and the
   * reload lines, and a second rewrite (the INI is rewritten under both its names, which are the
   * same) changes nothing.
   */
  lemma ReshadeIniRewrite(lines: seq<string>)
    ensures |ReshadeIniLines(lines)| == |lines|
    ensures forall i :: 0 <= i < |lines| && !StartsWith(lines[i], "PresetPath=") && !StartsWith(lines[i], NO_RELOAD_NAME)
              ==> ReshadeIniLines(lines)[i] == lines[i]
    ensures forall i :: 0 <= i < |lines| && StartsWith(lines[i], "PresetPath=") ==> ReshadeIniLines(lines)[i] == PRESET_PATH_LINE
    ensures forall i :: 0 <= i < |lines| && StartsWith(lines[i], NO_RELOAD_NAME) ==> ReshadeIniLines(lines)[i] == NO_RELOAD_LINE
    ensures ReshadeIniLines(ReshadeIniLines(lines)) == ReshadeIniLines(lines)
  {
    forall i | 0 <= i < |lines| {
      ReshadeIniLineMeaning(lines[i]);
    }
  }

  const DIR_ERROR_PREFIX := "Will not delete ReShade directory with user data: "

  /** The directories removed, in the order tried; `failing` holds those whose removal raises, with the error text. */
  function RemovedDirs(order: seq<string>, failing: map<string, string>): (r: seq<string>)
    ensures forall x :: x in r ==> x in order && x !in failing
    decreases |order|
  {
    if order == [] then []
    else
      var init := order[..|order| - 1];
      assert forall x :: x in init ==> x in order;
      RemovedDirs(init, failing) + (if order[|order| - 1] in failing then [] else [order[|order| - 1]])
  }

  /** The error messages of the directories that could not be removed, concatenated in order. */
  function DirErrors(order: seq<string>, failing: map<string, string>): string
    decreases |order|
  {
    if order == [] then ""
    else
      var last := order[|order| - 1];
      DirErrors(order[..|order| - 1], failing) + (if last in failing then DIR_ERROR_PREFIX + failing[last] else "")
  }

  /** One more directory of the order, removed or recorded. */
  lemma RemovalStep(order: seq<string>, i: nat, failing: map<string, string>)
    requires i < |order|
    ensures RemovedDirs(order[..i + 1], failing)
            == RemovedDirs(order[..i], failing) + (if order[i] in failing then [] else [order[i]])
    ensures DirErrors(order[..i + 1], failing)
            == DirErrors(order[..i], failing) + (if order[i] in failing then DIR_ERROR_PREFIX + failing[order[i]] else "")
  {
    assert order[..i + 1][..i] == order[..i];
  }

  /** Every directory is either removed or kept because its removal raised. */
  lemma {:induction false} DirsAccounted(order: seq<string>, failing: map<string, string>)
    ensures forall x :: x in order ==> (x in RemovedDirs(order, failing) <==> x !in failing)
    decreases |order|
  {
    if order != [] {
      var init := order[..|order| - 1];
      DirsAccounted(init, failing);
      assert order == init + [order[|order| - 1]];
    }
  }

  /** Removing in a longest-first order removes longest first, so no directory goes before one inside it. */
  lemma {:induction false} RemovedLongestFirst(order: seq<string>, failing: map<string, string>)
    requires LongestFirst(order)
    ensures LongestFirst(RemovedDirs(order, failing))
    decreases |order|
  {
    if order != [] {
      var init := order[..|order| - 1];
      var last := order[|order| - 1];
      RemovedLongestFirst(init, failing);
      var r := RemovedDirs(init, failing);
      if last !in failing {
        forall i | 0 <= i < |r|
          ensures |r[i]| >= |last|
        {
          assert r[i] in init;
          var k :| 0 <= k < |init| && init[k] == r[i];
        }
      }
    }
  }

  // ---------------------------------------------------------------------------------------
  // The objects

  /** The preprocessor definitions: one dict in the class, shared by every toolkit. */
  class PreprocessorTable {
    var entries: Dict

    constructor()
      ensures entries == PREPROCESSOR_DEFAULTS
    {
      entries := PREPROCESSOR_DEFAULTS;
    }
  }

  /**
   * The files of a game installation the toolkit touches: the preset file (absent, or its lines),
   * ReShade's INI (absent, or its lines), and the ReShade directories removed so far.
   */
  class GameDir {
    var presetFile: Option<seq<string>>
    var reshadeIni: Option<seq<string>>
    var removed: seq<string>

    constructor(presetFile: Option<seq<string>>, reshadeIni: Option<seq<string>>)
      ensures this.presetFile == presetFile && this.reshadeIni == reshadeIni && removed == []
    {
      this.presetFile := presetFile;
      this.reshadeIni := reshadeIni;
      removed := [];
    }

    /** `_update_reshade_ini`; a missing INI makes `open` raise, which is not caught. */
    method UpdateReshadeIni() returns (raised: bool)
      modifies this`reshadeIni
      ensures raised <==> old(reshadeIni).None?
      ensures !raised ==> reshadeIni == Some(ReshadeIniLines(old(reshadeIni).value))
      ensures raised ==> reshadeIni == old(reshadeIni)
    {
      if reshadeIni.None? {
        return true;
      }
      var lines := reshadeIni.value;
      var updated := [];
      var i := 0;
      while i < |lines|
        invariant 0 <= i <= |lines|
        invariant updated == ReshadeIniLines(lines[..i])
      {
        var line := lines[i];
        if StartsWith(line, "PresetPath=") {
          line := PRESET_PATH_LINE;
        }
        if StartsWith(line, NO_RELOAD_NAME) {
          line := NO_RELOAD_LINE;
        }
        updated := updated + [line];
        i := i + 1;
      }
      assert lines[..i] == lines;
      reshadeIni := Some(updated);
      return false;
    }
  }

  const READ_ERROR := "Error reading Reshade Preset Ini file"
  const WRITE_ERROR_PREFIX := "Error writing Reshade Preset Ini file: "

  /** The toolkit of one game installation and the preset options it exchanges with it. */
  class VrToolKit {
    var groups: seq<OptionGroup>
    const preprocessor: PreprocessorTable
    var iniSettings: Dict
    var iniDefaults: Dict
    var vrtKeys: set<string>
    var clarityKeys: set<string>
    var error: string

    /** Both tables are dicts: each key once. */
    predicate Valid()
      reads this, preprocessor
    {
      UniqueKeys(iniSettings) && UniqueKeys(preprocessor.entries)
    }

    /**
     * `__init__` with `_read_setting_defaults`: the settings start at their defaults; the two key
     * sets are those of the VRToolkit tables and of the Clarity table.
     */
    constructor(groups: seq<OptionGroup>, preprocessor: PreprocessorTable, graphics: Graphics)
      ensures this.groups == groups && this.preprocessor == preprocessor && error == ""
      ensures iniSettings == AllSettings(graphics) && iniDefaults == AllSettings(graphics)
      ensures vrtKeys == KeySet(VrtSettings(graphics)) && clarityKeys == KeySet(graphics.clarity)
      ensures UniqueKeys(iniSettings)
    {
      this.groups := groups;
      this.preprocessor := preprocessor;
      error := "";
      iniSettings := [];
      iniDefaults := [];
      var vrt := VrtSettings(graphics);
      vrtKeys := KeySet(vrt);
      clarityKeys := KeySet(graphics.clarity);
      new;
      AllSettingsUnique(graphics);
      CopyDefaults(PutAll(vrt, graphics.clarity));
    }

    /** The loop of `_read_setting_defaults`: each merged setting stored in both empty dicts. */
    method CopyDefaults(settings: Dict)
      requires UniqueKeys(settings) && iniSettings == [] && iniDefaults == []
      modifies this`iniSettings, this`iniDefaults
      ensures iniSettings == settings && iniDefaults == settings
    {
      var i := 0;
      while i < |settings|
        invariant 0 <= i <= |settings|
        invariant iniSettings == settings[..i] && iniDefaults == settings[..i]
      {
        var (key, value) := settings[i];
        assert key !in Keys(settings[..i]) by {
          forall j | 0 <= j < i
            ensures Keys(settings[..i])[j] != key
          {
            assert settings[..i][j] == settings[j];
          }
        }
        assert settings[..i + 1] == settings[..i] + [(key, value)];
        iniSettings := Put(iniSettings, key, value);
        iniDefaults := Put(iniDefaults, key, value);
        i := i + 1;
      }
      assert settings[..i] == settings;
    }

    // -------------------------------------------------------------------------------------
    // `_update_options`

    /** The preset direction over the options of one group. */
    method TakeGroup(options: seq<PresetOption>, flags0: Flags) returns (flags: Flags)
      modifies this`iniSettings, preprocessor`entries
      ensures Sync(flags, preprocessor.entries, iniSettings)
              == TakePrefix(Sync(flags0, old(preprocessor.entries), old(iniSettings)), options, |options|)
    {
      ghost var st0 := Sync(flags0, preprocessor.entries, iniSettings);
      flags := flags0;
      var j := 0;
      while j < |options|
        invariant 0 <= j <= |options|
        invariant Sync(flags, preprocessor.entries, iniSettings) == TakePrefix(st0, options, j)
      {
        var o := options[j];
        if o.key == "use_reshade" {
          flags := flags.(useReshade := o.value);
        } else if o.key == "use_openxr" {
          flags := flags.(useOpenxr := o.value);
        } else if o.key == "use_clarity" {
          flags := flags.(useClarity := o.value);
        } else if o.key in Keys(preprocessor.entries) {
          preprocessor.entries := Set(preprocessor.entries, o.key, o.value);
        } else if o.key in Keys(iniSettings) {
          iniSettings := Set(iniSettings, o.key, o.value);
        }
        j := j + 1;
      }
    }

    /** The disk direction over the options of one group: each shown from the tables. */
    method ShowGroup(options: seq<PresetOption>, clarityFound: bool, layerActive: bool)
      returns (shown: seq<PresetOption>)
      ensures shown == ShowOptions(options, preprocessor.entries, iniSettings, clarityFound, layerActive)
    {
      shown := [];
      var j := 0;
      while j < |options|
        invariant 0 <= j <= |options|
        invariant shown == ShowOptions(options[..j], preprocessor.entries, iniSettings, clarityFound, layerActive)
      {
        var o := options[j];
        if o.key == "use_reshade" {
          o := o.(value := Bool(true), existsInRf := true);
        }
        if o.key == "use_openxr" {
          o := o.(value := Bool(layerActive), existsInRf := true);
        }
        if o.key == "use_clarity" {
          o := o.(value := Bool(clarityFound), existsInRf := true);
        } else if o.key in Keys(preprocessor.entries) {
          o := o.(value := Lookup(preprocessor.entries, o.key).value, existsInRf := true);
        } else if o.key in Keys(iniSettings) {
          o := o.(value := Lookup(iniSettings, o.key).value, existsInRf := true);
        }
        shown := shown + [o];
        j := j + 1;
      }
      assert options[..j] == options;
    }

    /**
     * `_update_options`: from the preset into the tables (returning the three switches), or from
     * the tables back into the preset's options; the Clarity group is skipped while Clarity is off.
     */
    method UpdateOptions(fromDisk: bool, clarityFound: bool, layerActive: bool)
      returns (useReshade: Value, useClarity: Value, useOpenxr: Value)
      modifies this`groups, this`iniSettings, preprocessor`entries
      ensures var r := SyncAll(fromDisk, Sync(NO_FLAGS, old(preprocessor.entries), old(iniSettings)), old(groups),
                               clarityFound, layerActive);
              Flags(useReshade, useClarity, useOpenxr) == r.0.flags && preprocessor.entries == r.0.preprocessor
              && iniSettings == r.0.ini && groups == r.1
    {
      ghost var st0 := Sync(NO_FLAGS, preprocessor.entries, iniSettings);
      ghost var gs := groups;
      var flags := NO_FLAGS;
      var i := 0;
      while i < |groups|
        invariant 0 <= i <= |groups| == |gs|
        invariant Sync(flags, preprocessor.entries, iniSettings) == SyncPrefix(fromDisk, st0, gs, i, clarityFound, layerActive).0
        invariant groups[..i] == SyncPrefix(fromDisk, st0, gs, i, clarityFound, layerActive).1
        invariant forall j :: i <= j < |gs| ==> groups[j] == gs[j]
      {
        flags := UpdateGroup(i, fromDisk, flags, clarityFound, layerActive);
        assert groups[..i + 1] == groups[..i] + [groups[i]];
        i := i + 1;
      }
      assert groups[..i] == groups;
      return flags.useReshade, flags.useClarity, flags.useOpenxr;
    }

    /** One pass of the loop of `_update_options`: group `i` is skipped, shown or taken. */
    method UpdateGroup(i: nat, fromDisk: bool, flags0: Flags, clarityFound: bool, layerActive: bool)
      returns (flags: Flags)
      requires i < |groups|
      modifies this`groups, this`iniSettings, preprocessor`entries
      ensures var s := SyncGroup(fromDisk, Sync(flags0, old(preprocessor.entries), old(iniSettings)), old(groups[i]),
                                 clarityFound, layerActive);
              Sync(flags, preprocessor.entries, iniSettings) == s.0 && groups == old(groups)[i := s.1]
    {
      flags := flags0;
      var g := groups[i];
      if g.isClarity && !Truthy(flags.useClarity) {
        groups := groups[i := Absent(g)];
      } else if fromDisk {
        var shown := ShowGroup(g.options, clarityFound, layerActive);
        groups := groups[i := g.(options := shown)];
      } else {
        flags := TakeGroup(g.options, flags);
      }
    }

    // -------------------------------------------------------------------------------------
    // `_read_preset_ini`

    /** The definitions of a preprocessor line, stored one by one until one of them raises. */
    method ReadDefinitionsInto(defs: seq<string>) returns (raised: bool)
      modifies preprocessor`entries
      ensures (preprocessor.entries, raised) == ReadDefinitions(old(preprocessor.entries), defs, 0)
    {
      ghost var pre0 := preprocessor.entries;
      var j := 0;
      while j < |defs|
        invariant 0 <= j <= |defs|
        invariant ReadDefinitions(pre0, defs, 0) == ReadDefinitions(preprocessor.entries, defs, j)
      {
        var split := SplitKey(defs[j]);
        if split.None? || '=' in split.value.1 {
          return true;
        }
        var (key, value) := split.value;
        if key in Keys(preprocessor.entries) {
          var v := if IsNumeric(value) then IntVal(DigitsValue(value)) else Str(value);
          preprocessor.entries := Set(preprocessor.entries, key, v);
        }
        j := j + 1;
      }
      return false;
    }

    /**
     * The settings loop over one line: the setting whose name is the text before the line's
     * first `=` takes the converted value; a value `float()` cannot read raises.
     */
    method ReadSettingsFrom(line: string) returns (raised: bool)
      requires UniqueKeys(iniSettings)
      modifies this`iniSettings
      ensures raised <==> ReadIniLine(AsWritten, old(iniSettings), line).None?
      ensures !raised ==> iniSettings == ReadIniLine(AsWritten, old(iniSettings), line).value
      ensures raised ==> iniSettings == old(iniSettings)
    {
      ghost var ini0 := iniSettings;
      ghost var sk := SplitKey(line);
      var j := 0;
      while j < |iniSettings|
        invariant 0 <= j <= |iniSettings| && Keys(iniSettings) == Keys(ini0)
        invariant sk.Some? && sk.value.0 in Keys(ini0)[..j] ==> ReadIniLine(AsWritten, ini0, line) == Some(iniSettings)
        invariant !(sk.Some? && sk.value.0 in Keys(ini0)[..j]) ==> iniSettings == ini0
      {
        var k := iniSettings[j].0;
        assert k == Keys(ini0)[j];
        assert Keys(ini0)[..j + 1] == Keys(ini0)[..j] + [k];
        var split := SplitKey(line);
        if split.Some? && split.value.0 == k {
          assert k !in Keys(ini0)[..j] by {
            forall m | 0 <= m < j
              ensures Keys(ini0)[m] != k
            {
              assert ini0[m].0 != ini0[j].0;
            }
          }
          var converted := ConvertAsWritten(split.value.1);
          if converted.None? {
            return true;
          }
          iniSettings := Set(iniSettings, k, converted.value);
        }
        j := j + 1;
      }
      assert Keys(ini0)[..j] == Keys(ini0);
      return false;
    }

    /**
     * `_read_preset_ini`: a missing preset gives false; otherwise every line is read into the
     * tables (what was stored before a line raised stays stored, and the error is recorded), and
     * after a clean read the options are updated from the tables.
     */
    method ReadPresetIni(dir: GameDir, reg: Registry, env: RegistryEnv, name: string) returns (ok: bool)
      requires Valid()
      modifies this`groups, this`iniSettings, this`error, preprocessor`entries
      ensures old(dir.presetFile).None? ==> !ok && unchanged(this) && unchanged(preprocessor)
      ensures old(dir.presetFile).Some? ==>
                var r := ReadLines(AsWritten, Reading(old(preprocessor.entries), old(iniSettings), false), old(dir.presetFile).value, 0);
                ok == !r.1
                && (r.1 ==> preprocessor.entries == r.0.preprocessor && iniSettings == r.0.ini
                            && error == READ_ERROR && groups == old(groups))
                && (!r.1 ==> preprocessor.entries == r.0.preprocessor && iniSettings == r.0.ini && error == old(error)
                             && groups == SyncAll(true, Sync(NO_FLAGS, r.0.preprocessor, r.0.ini), old(groups),
                                                  r.0.clarityFound, Installed(env, reg.key, name) == Some(1)).1)
    {
      if dir.presetFile.None? {
        return false;
      }
      var clarityFound, raised := ReadPresetLines(dir.presetFile.value);
      if raised {
        error := READ_ERROR;
        return false;
      }
      var installed := reg.IsInstalled(env, name);
      SyncKeepsKeys(true, Sync(NO_FLAGS, preprocessor.entries, iniSettings), groups, |groups|, clarityFound, installed == Some(1));
      DiskKeepsTables(Sync(NO_FLAGS, preprocessor.entries, iniSettings), groups, |groups|, clarityFound, installed == Some(1));
      var _, _, _ := UpdateOptions(true, clarityFound, installed == Some(1));
      return true;
    }

    /** The line loop of `_read_preset_ini`: definitions, the Clarity flag and settings, up to the first line that raises. */
    method ReadPresetLines(lines: seq<string>) returns (clarityFound: bool, raised: bool)
      requires Valid()
      modifies this`iniSettings, preprocessor`entries
      ensures Valid()
      ensures var r := ReadLines(AsWritten, Reading(old(preprocessor.entries), old(iniSettings), false), lines, 0);
              raised == r.1 && preprocessor.entries == r.0.preprocessor && iniSettings == r.0.ini
              && (!raised ==> clarityFound == r.0.clarityFound)
    {
      ghost var st0 := Reading(preprocessor.entries, iniSettings, false);
      clarityFound := false;
      var i := 0;
      while i < |lines|
        invariant 0 <= i <= |lines| && Valid()
        invariant ReadLines(AsWritten, st0, lines, 0) == ReadLines(AsWritten, Reading(preprocessor.entries, iniSettings, clarityFound), lines, i)
      {
        var line := lines[i];
        ghost var pre1 := preprocessor.entries;
        if StartsWith(line, PREPROCESSOR_NAME) {
          raised := ReadDefinitionsInto(Split(DefinitionsText(line), ','));
          if raised {
            return;
          }
        }
        SameKeysUnique(pre1, preprocessor.entries);
        if NamesClarity(line) {
          clarityFound := true;
        }
        ghost var ini1 := iniSettings;
        raised := ReadSettingsFrom(line);
        if raised {
          return;
        }
        SameKeysUnique(ini1, iniSettings);
        i := i + 1;
      }
      raised := false;
    }

    // -------------------------------------------------------------------------------------
    // `_update_preset_ini`

    /** The preprocessor definitions, each behind a comma unless it is the first. */
    method PreprocessorValues() returns (values: string)
      ensures values == Join(Definitions(preprocessor.entries), ",")
    {
      var entries := preprocessor.entries;
      values := "";
      var i := 0;
      while i < |entries|
        invariant 0 <= i <= |entries|
        invariant values == Join(Definitions(entries[..i]), ",")
      {
        var (k, v) := entries[i];
        var def := k + "=" + PyStr(v);
        assert Definitions(entries[..i + 1]) == Definitions(entries[..i]) + [def];
        JoinSnoc(Definitions(entries[..i]), ",", def);
        if i > 0 {
          JoinLength(Definitions(entries[..i]), ",");
          assert Definitions(entries[..i])[0] == Definition(entries[0]);
        }
        values := values + (if values != "" then "," else "") + def;
        i := i + 1;
      }
      assert entries[..i] == entries;
    }

    /** The three header lines: the preprocessor definitions and the two technique lines. */
    method HeaderLinesOf(useClarity: bool) returns (lines: seq<string>)
      ensures lines == HeaderLines(preprocessor.entries, useClarity)
    {
      var values := PreprocessorValues();
      lines := [PREPROCESSOR_NAME + "=" + values + "\n"];
      lines := lines + [TechniquesLine(TECHNIQUES_NAME, useClarity)];
      lines := lines + [TechniquesLine(TECHNIQUES_SORTING, useClarity)];
    }

    /** The lines of one section: each setting of the section that differs from its default. */
    method SectionLinesOf(keys: set<string>) returns (lines: seq<string>)
      ensures lines == SectionLines(iniSettings, iniDefaults, keys)
    {
      lines := [];
      var i := 0;
      while i < |iniSettings|
        invariant 0 <= i <= |iniSettings|
        invariant lines == SectionLines(iniSettings[..i], iniDefaults, keys)
      {
        var (k, v) := iniSettings[i];
        assert iniSettings[..i + 1][..i] == iniSettings[..i];
        var default := Lookup(iniDefaults, k);
        if k !in keys || (default.Some? && PyEq(v, default.value)) {
          i := i + 1;
          continue;
        }
        ghost var changed := Changed(iniSettings[..i], iniDefaults, keys);
        assert Changed(iniSettings[..i + 1], iniDefaults, keys) == changed + [(k, v)];
        assert ValueLines(changed + [(k, v)]) == ValueLines(changed) + [IniValueLine(k, v)];
        lines := lines + [IniValueLine(k, v)];
        i := i + 1;
      }
      assert iniSettings[..i] == iniSettings;
    }

    /**
     * `_update_preset_ini`: the preset file's lines; when writing raises the file is left as it
     * was, the error recorded and false returned.
     */
    method UpdatePresetIni(dir: GameDir, useClarity: bool, writeError: Option<string>) returns (ok: bool)
      modifies this`error, dir`presetFile
      ensures ok <==> writeError.None?
      ensures ok ==> dir.presetFile == Some(PresetLines(preprocessor.entries, iniSettings, iniDefaults, vrtKeys,
                                                        clarityKeys, useClarity))
                     && error == old(error)
      ensures !ok ==> dir.presetFile == old(dir.presetFile) && error == WRITE_ERROR_PREFIX + writeError.value
    {
      var lines := PresetLinesOf(useClarity);
      if writeError.Some? {
        error := WRITE_ERROR_PREFIX + writeError.value;
        return false;
      }
      dir.presetFile := Some(lines);
      return true;
    }

    /** The lines `_update_preset_ini` builds: the header, the Clarity section when used, the VRToolkit section. */
    method PresetLinesOf(useClarity: bool) returns (lines: seq<string>)
      ensures lines == PresetLines(preprocessor.entries, iniSettings, iniDefaults, vrtKeys, clarityKeys, useClarity)
    {
      var header := HeaderLinesOf(useClarity);
      var clarityLines := SectionLinesOf(clarityKeys);
      var clarity: seq<string> := [];
      if useClarity {
        clarity := ["\n", CLARITY_HEADER] + clarityLines + ["\n"];
      }
      var vrtLines := SectionLinesOf(vrtKeys);
      var vrt := ["\n", VRT_HEADER] + vrtLines;
      lines := header + clarity + vrt;
    }

    // -------------------------------------------------------------------------------------
    // `write`

    /** The ReShade directories, longest path first; a removal that raises is recorded as an error. */
    method RemoveReshadeDirs(dir: GameDir, dirs: seq<string>, failing: map<string, string>)
      modifies this`error, dir`removed
      ensures dir.removed == old(dir.removed) + RemovedDirs(ByLengthDesc(dirs), failing)
      ensures error == old(error) + DirErrors(ByLengthDesc(dirs), failing)
    {
      var order := ByLengthDesc(dirs);
      var i := 0;
      while i < |order|
        invariant 0 <= i <= |order|
        invariant dir.removed == old(dir.removed) + RemovedDirs(order[..i], failing)
        invariant error == old(error) + DirErrors(order[..i], failing)
      {
        var d := order[i];
        RemovalStep(order, i, failing);
        if d in failing {
          AppendAssoc(old(error), DirErrors(order[..i], failing), DIR_ERROR_PREFIX + failing[d]);
          error := error + (DIR_ERROR_PREFIX + failing[d]);
        } else {
          AppendAssoc(old(dir.removed), RemovedDirs(order[..i], failing), [d]);
          AppendEmpty(DirErrors(order[..i], failing));
          dir.removed := dir.removed + [d];
        }
        i := i + 1;
      }
      assert order[..i] == order;
    }

    /**
     * `write`: take the preset's options into the tables; without ReShade, switch an active
     * OpenXR layer off, delete the preset and remove ReShade's directories, and return false;
     * with ReShade, rewrite ReShade's INI (raising when it is missing), set up the OpenXR layer
     * when it is used, and write the preset.
     */
    method Write(dir: GameDir, reg: Registry, env: RegistryEnv, name: string, apps: AppsIniFile, exe: string,
                 removeDirs: seq<string>, rmdirErrors: map<string, string>, writeError: Option<string>)
      returns (ok: bool, raised: bool)
      modifies this, preprocessor, dir, reg, apps
      ensures var s := SyncAll(false, Sync(NO_FLAGS, old(preprocessor.entries), old(iniSettings)), old(groups), true, false);
              preprocessor.entries == s.0.preprocessor && iniSettings == s.0.ini && groups == s.1
      ensures var f := SyncAll(false, Sync(NO_FLAGS, old(preprocessor.entries), old(iniSettings)), old(groups), true, false).0.flags;
              !Truthy(f.useReshade) ==>
                !ok && !raised && dir.presetFile.None? && dir.reshadeIni == old(dir.reshadeIni)
                && dir.removed == old(dir.removed) + RemovedDirs(ByLengthDesc(removeDirs), rmdirErrors)
                && error == old(error) + DirErrors(ByLengthDesc(removeDirs), rmdirErrors)
                && reg.key == (if Truthy(f.useOpenxr) && Installed(env, old(reg.key), name) == Some(1)
                               then SetupLayer(env, old(reg.key), name, false).1 else old(reg.key))
                && apps.content == old(apps.content)
      ensures var f := SyncAll(false, Sync(NO_FLAGS, old(preprocessor.entries), old(iniSettings)), old(groups), true, false).0.flags;
              Truthy(f.useReshade) && old(dir.reshadeIni).None? ==>
                raised && dir.presetFile == old(dir.presetFile) && reg.key == old(reg.key) && error == old(error)
                && apps.content == old(apps.content)
      ensures var f := SyncAll(false, Sync(NO_FLAGS, old(preprocessor.entries), old(iniSettings)), old(groups), true, false).0.flags;
              Truthy(f.useReshade) && old(dir.reshadeIni).Some? ==>
                !raised && dir.reshadeIni == Some(ReshadeIniLines(old(dir.reshadeIni).value))
                && reg.key == (if Truthy(f.useOpenxr) then SetupLayer(env, old(reg.key), name, true).1 else old(reg.key))
                && (ok <==> writeError.None?)
                && (ok ==> dir.presetFile == Some(PresetLines(preprocessor.entries, iniSettings, iniDefaults, vrtKeys,
                                                              clarityKeys, Truthy(f.useClarity)))
                           && error == old(error))
                && (!ok ==> dir.presetFile == old(dir.presetFile) && error == WRITE_ERROR_PREFIX + writeError.value)
                && apps.content == (if Truthy(f.useOpenxr) && env.available
                                       && UpdateAppsIni(old(apps.content), exe).Rewritten?
                                    then Some(UpdateAppsIni(old(apps.content), exe).content) else old(apps.content))
    {
      var useReshade, useClarity, useOpenxr := UpdateOptions(false, true, false);
      if !Truthy(useReshade) {
        if Truthy(useOpenxr) {
          var installed := reg.IsInstalled(env, name);
          if installed == Some(1) {
            var _ := reg.Setup(env, name, false, None, apps);
          }
        }
        dir.presetFile := None;
        RemoveReshadeDirs(dir, removeDirs, rmdirErrors);
        return false, false;
      }
      ghost var ini0 := dir.reshadeIni;
      raised := dir.UpdateReshadeIni();
      if raised {
        return false, true;
      }
      var _ := dir.UpdateReshadeIni();
      ReshadeIniRewrite(ini0.value);
      if Truthy(useOpenxr) {
        var _ := reg.Setup(env, name, true, Some(exe), apps);
      }
      ok := UpdatePresetIni(dir, Truthy(useClarity), writeError);
    }
  }
}
