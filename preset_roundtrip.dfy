/**
 * Reading back the preset file the toolkit writes: the preprocessor definitions come back as
 * written, the Clarity flag comes back as the switch that was written, and every written setting
 * comes back with its value. The settings that come back are the non-negative floats for the
 * program's conversion, and every int and float for the corrected one.
 */
module PresetRoundTrip {
  import opened Common
  import opened VrToolkitIni
  import opened VrToolkit

  // ---------------------------------------------------------------------------------------
  // Reading a file in pieces

  lemma {:induction false} ReadLinesShift(conv: Conversion, st: Reading, lines: seq<string>, i: nat)
    requires i <= |lines|
    ensures ReadLines(conv, st, lines, i) == ReadLines(conv, st, lines[i..], 0)
    decreases |lines| - i
  {
    if i < |lines| {
      var next := ReadLine(conv, st, lines[i]);
      assert lines[i..][0] == lines[i];
      if !next.1 {
        ReadLinesShift(conv, next.0, lines, i + 1);
        ReadLinesShift(conv, next.0, lines[i..], 1);
        assert lines[i..][1..] == lines[i + 1..];
      }
    }
  }

  /** A file read in two parts: the second part is read from where the first left off, unless the first raised. */
  lemma {:induction false} ReadLinesAppend(conv: Conversion, st: Reading, a: seq<string>, b: seq<string>)
    ensures ReadLines(conv, st, a + b, 0) == (var r := ReadLines(conv, st, a, 0); if r.1 then r else ReadLines(conv, r.0, b, 0))
    decreases |a|
  {
    if a == [] {
      assert a + b == b;
    } else {
      var next := ReadLine(conv, st, a[0]);
      assert (a + b)[0] == a[0];
      if !next.1 {
        ReadLinesShift(conv, next.0, a + b, 1);
        ReadLinesShift(conv, next.0, a, 1);
        assert (a + b)[1..] == a[1..] + b;
        ReadLinesAppend(conv, next.0, a[1..], b);
      }
    }
  }

  // ---------------------------------------------------------------------------------------
  // The lines one at a time

  /** A line that starts with `k=` does not start with a name without `=` that `k` does not start with. */
  lemma KeyLinePrefix(k: string, rest: string, name: string)
    requires '=' !in name && !StartsWith(k, name)
    ensures !StartsWith(k + "=" + rest, name)
  {
    var line := k + "=" + rest;
    if |name| <= |line| && |k| < |name| {
      assert line[|k|] == '=';
      assert line[..|name|][|k|] == '=';
    } else if |k| >= |name| {
      assert line[..|name|] == k[..|name|];
    }
  }

  /** A setting name the reader tells apart from the preprocessor and technique lines. */
  predicate KeyReadable(k: string) {
    '=' !in k && !StartsWith(k, PREPROCESSOR_NAME) && !StartsWith(k, TECHNIQUES_NAME) && k != TECHNIQUES_SORTING
  }

  /**
   * A setting the writer renders so that the reader gives it back: a readable name and a number.
   * The corrected conversion gives back every int and float; the program's gives back only the
   * floats that are not negative (an int comes back as the string "3\n", a negative float as a
   * string too).
   */
  predicate SettingReadable(conv: Conversion, e: (string, Value)) {
    KeyReadable(e.0) &&
    match conv
    case Corrected => e.1.IntVal? || e.1.FloatVal?
    case AsWritten => e.1.FloatVal? && e.1.micro >= 0
  }

  /** The settings half of a line `k=rest` whose name is not a setting: nothing changes. */
  lemma IniLineUnknown(conv: Conversion, ini: Dict, k: string, rest: string)
    requires '=' !in k && k !in Keys(ini)
    ensures ReadIniLine(conv, ini, k + "=" + rest) == Some(ini)
  {
    SplitKeyOf(k, rest);
  }

  /** The settings half of a line `k=rest` naming a setting whose text converts: the setting takes the value. */
  lemma IniLineKnown(conv: Conversion, ini: Dict, k: string, rest: string, v: Value)
    requires '=' !in k && k in Keys(ini) && Convert(conv, rest) == Some(v)
    ensures ReadIniLine(conv, ini, k + "=" + rest) == Some(Set(ini, k, v))
  {
    SplitKeyOf(k, rest);
  }

  /** A line other than the preprocessor line changes at most the settings and the Clarity flag. */
  lemma ReadOtherLine(conv: Conversion, st: Reading, line: string, ini: Dict)
    requires !StartsWith(line, PREPROCESSOR_NAME) && ReadIniLine(conv, st.ini, line) == Some(ini)
    ensures ReadLine(conv, st, line) == (Reading(st.preprocessor, ini, st.clarityFound || NamesClarity(line)), false)
  {
  }

  /** The preprocessor line: its definitions are read and, its name not being a setting, nothing else changes. */
  lemma ReadDefinitionsLine(conv: Conversion, st: Reading, line: string, pre: Dict)
    requires StartsWith(line, PREPROCESSOR_NAME) && !NamesClarity(line)
    requires ReadDefinitions(st.preprocessor, Split(DefinitionsText(line), ','), 0) == (pre, false)
    requires ReadIniLine(conv, st.ini, line) == Some(st.ini)
    ensures ReadLine(conv, st, line) == (st.(preprocessor := pre), false)
  {
  }

  /** The preprocessor line is neither a setting nor a Techniques line. */
  lemma PreprocessorLineOther(conv: Conversion, ini: Dict, pre: Dict)
    requires PREPROCESSOR_NAME !in Keys(ini)
    ensures ReadIniLine(conv, ini, PreprocessorLine(pre)) == Some(ini)
    ensures !NamesClarity(PreprocessorLine(pre))
  {
    var line := PreprocessorLine(pre);
    var rest := Join(Definitions(pre), ",") + "\n";
    assert line == PREPROCESSOR_NAME + "=" + rest;
    IniLineUnknown(conv, ini, PREPROCESSOR_NAME, rest);
    assert line[0] == 'P';
  }

  lemma ReadPreprocessorLine(conv: Conversion, st: Reading, pre: Dict)
    requires Keys(st.preprocessor) == Keys(pre) && UniqueKeys(pre) && |pre| >= 1
    requires forall i :: 0 <= i < |pre| ==> Rereadable(pre[i])
    requires !Contains(Join(Definitions(pre), ",") + "\n", PREPROCESSOR_PREFIX)
    requires PREPROCESSOR_NAME !in Keys(st.ini)
    ensures ReadLine(conv, st, PreprocessorLine(pre)) == (st.(preprocessor := pre), false)
  {
    PreprocessorRoundTrip(st.preprocessor, pre);
    PreprocessorLineOther(conv, st.ini, pre);
    ReadDefinitionsLine(conv, st, PreprocessorLine(pre), pre);
  }

  /** A Techniques line is `name=rest`, and it is not the preprocessor line. */
  lemma TechniquesLineShape(name: string, useClarity: bool)
    requires name == TECHNIQUES_NAME || name == TECHNIQUES_SORTING
    ensures TechniquesLine(name, useClarity) == name + "=" + TechniquesRest(useClarity)
    ensures '=' !in name
    ensures !StartsWith(TechniquesLine(name, useClarity), PREPROCESSOR_NAME)
  {
    assert TechniquesLine(name, useClarity)[0] == 'T';
  }

  /** What follows the `=` of a Techniques line. */
  function TechniquesRest(useClarity: bool): string {
    VRT_TECHNIQUE + (if useClarity then "," + CLARITY_TECHNIQUE else "") + "\n"
  }

  lemma ReadTechniquesLine(conv: Conversion, st: Reading, name: string, useClarity: bool)
    requires name == TECHNIQUES_NAME || name == TECHNIQUES_SORTING
    requires name !in Keys(st.ini)
    ensures ReadLine(conv, st, TechniquesLine(name, useClarity))
            == (st.(clarityFound := st.clarityFound || NamesClarity(TechniquesLine(name, useClarity))), false)
  {
    TechniquesLineShape(name, useClarity);
    IniLineUnknown(conv, st.ini, name, TechniquesRest(useClarity));
    ReadOtherLine(conv, st, TechniquesLine(name, useClarity), st.ini);
  }

  /** A blank line or a section header changes nothing. */
  lemma ReadPlainLine(conv: Conversion, st: Reading, line: string)
    requires line == "\n" || line == CLARITY_HEADER || line == VRT_HEADER
    ensures ReadLine(conv, st, line) == (st, false)
  {
    assert '=' !in line;
    assert !StartsWith(line, PREPROCESSOR_NAME) && !StartsWith(line, TECHNIQUES_NAME) by {
      assert line[0] != 'P' && line[0] != 'T';
    }
    ReadOtherLine(conv, st, line, st.ini);
  }

  lemma ReadValueLine(conv: Conversion, st: Reading, e: (string, Value))
    requires SettingReadable(conv, e) && e.0 in Keys(st.ini)
    ensures ReadLine(conv, st, IniValueLine(e.0, e.1)) == (st.(ini := Set(st.ini, e.0, e.1)), false)
  {
    var (k, v) := e;
    var line := IniValueLine(k, v);
    var rest := IniText(v) + "\n";
    assert line == k + "=" + rest;
    KeyLinePrefix(k, rest, PREPROCESSOR_NAME);
    KeyLinePrefix(k, rest, TECHNIQUES_NAME);
    ValueTextOfLine(k, v);
    SplitKeyOf(k, rest);
    if conv == AsWritten {
      AsWrittenFloatRoundTrip(k, v.micro);
    } else if v.IntVal? {
      CorrectedIntRoundTrip(k, v.i);
    } else {
      CorrectedFloatRoundTrip(k, v.micro);
    }
    IniLineKnown(conv, st.ini, k, rest, v);
    ReadOtherLine(conv, st, line, Set(st.ini, k, v));
  }

  // ---------------------------------------------------------------------------------------
  // The sections

  /** Each entry set in turn. */
  function ApplyAll(x: Dict, entries: Dict): (r: Dict)
    ensures Keys(r) == Keys(x)
    decreases |entries|
  {
    if entries == [] then x else ApplyAll(Set(x, entries[0].0, entries[0].1), entries[1..])
  }

  lemma {:induction false} ApplyAllSnoc(x: Dict, entries: Dict, e: (string, Value))
    ensures ApplyAll(x, entries + [e]) == Set(ApplyAll(x, entries), e.0, e.1)
    decreases |entries|
  {
    if entries == [] {
      assert ApplyAll(Set(x, e.0, e.1), []) == Set(x, e.0, e.1);
    } else {
      assert (entries + [e])[1..] == entries[1..] + [e];
      ApplyAllSnoc(Set(x, entries[0].0, entries[0].1), entries[1..], e);
    }
  }

  /** The value lines of readable settings, each read into the settings that holds its name. */
  lemma {:induction false} ReadValueLines(conv: Conversion, st: Reading, entries: Dict)
    requires forall i :: 0 <= i < |entries| ==> SettingReadable(conv, entries[i]) && entries[i].0 in Keys(st.ini)
    ensures ReadLines(conv, st, ValueLines(entries), 0) == (st.(ini := ApplyAll(st.ini, entries)), false)
    decreases |entries|
  {
    if entries != [] {
      var lines := ValueLines(entries);
      ReadValueLine(conv, st, entries[0]);
      var next := st.(ini := Set(st.ini, entries[0].0, entries[0].1));
      assert ReadLine(conv, st, lines[0]) == (next, false);
      assert ReadLines(conv, st, lines, 0) == ReadLines(conv, next, lines, 1);
      ReadLinesShift(conv, next, lines, 1);
      assert lines[1..] == ValueLines(entries[1..]);
      ReadValueLines(conv, next, entries[1..]);
    }
  }

  /** The settings after reading a section: each setting the section writes, the base value otherwise. */
  function Overlay(base: Dict, ini: Dict, defaults: Dict, keys: set<string>): (r: Dict)
    requires |base| == |ini|
    ensures |r| == |base|
  {
    seq(|base|, i requires 0 <= i < |base| => if Written(ini[i], defaults, keys) then ini[i] else base[i])
  }

  /** The settings after the first `n` entries of `ini` are set where written. */
  function OverlayPrefix(base: Dict, ini: Dict, defaults: Dict, keys: set<string>, n: nat): (r: Dict)
    requires |base| == |ini| && n <= |ini|
    ensures |r| == |base|
  {
    seq(|base|, i requires 0 <= i < |base| => if i < n && Written(ini[i], defaults, keys) then ini[i] else base[i])
  }

  /** One more entry of `ini` overlaid: it is set when written, and the rest stays. */
  lemma OverlayStep(base: Dict, ini: Dict, defaults: Dict, keys: set<string>, n: nat)
    requires Keys(base) == Keys(ini) && UniqueKeys(ini) && 0 < n <= |ini|
    ensures OverlayPrefix(base, ini, defaults, keys, n)
            == if Written(ini[n - 1], defaults, keys)
               then Set(OverlayPrefix(base, ini, defaults, keys, n - 1), ini[n - 1].0, ini[n - 1].1)
               else OverlayPrefix(base, ini, defaults, keys, n - 1)
  {
    var e := ini[n - 1];
    var prev := OverlayPrefix(base, ini, defaults, keys, n - 1);
    var next := OverlayPrefix(base, ini, defaults, keys, n);
    if Written(e, defaults, keys) {
      forall i | 0 <= i < |base|
        ensures Set(prev, e.0, e.1)[i] == next[i]
      {
        assert prev[i].0 == base[i].0 == Keys(base)[i] == ini[i].0;
        if i != n - 1 {
          assert ini[i].0 != e.0;
        }
      }
    } else {
      assert next == prev;
    }
  }

  lemma {:induction false} ApplyChangedPrefix(base: Dict, ini: Dict, defaults: Dict, keys: set<string>, n: nat)
    requires Keys(base) == Keys(ini) && UniqueKeys(ini) && n <= |ini|
    ensures ApplyAll(base, Changed(ini[..n], defaults, keys)) == OverlayPrefix(base, ini, defaults, keys, n)
    decreases n
  {
    if n == 0 {
      assert OverlayPrefix(base, ini, defaults, keys, 0) == base;
    } else {
      var e := ini[n - 1];
      var init := Changed(ini[..n - 1], defaults, keys);
      assert ini[..n][..n - 1] == ini[..n - 1];
      assert Changed(ini[..n], defaults, keys) == init + (if Written(e, defaults, keys) then [e] else []);
      ApplyChangedPrefix(base, ini, defaults, keys, n - 1);
      OverlayStep(base, ini, defaults, keys, n);
      if Written(e, defaults, keys) {
        ApplyAllSnoc(base, init, e);
      } else {
        assert init + [] == init;
      }
    }
  }

  /** Reading a section's lines sets exactly the settings it writes. */
  lemma ApplyChanged(base: Dict, ini: Dict, defaults: Dict, keys: set<string>)
    requires Keys(base) == Keys(ini) && UniqueKeys(ini)
    ensures ApplyAll(base, Changed(ini, defaults, keys)) == Overlay(base, ini, defaults, keys)
  {
    ApplyChangedPrefix(base, ini, defaults, keys, |ini|);
    assert ini[..|ini|] == ini;
  }

  /** Two sections one after the other set what either of them writes. */
  lemma OverlayUnion(base: Dict, ini: Dict, defaults: Dict, first: set<string>, second: set<string>)
    requires |base| == |ini|
    ensures Overlay(Overlay(base, ini, defaults, first), ini, defaults, second) == Overlay(base, ini, defaults, first + second)
  {
  }

  /** The settings a section writes are readable settings the reader holds, when each one it writes is readable. */
  lemma ChangedReadable(conv: Conversion, st: Reading, ini: Dict, defaults: Dict, keys: set<string>)
    requires Keys(st.ini) == Keys(ini)
    requires forall i :: 0 <= i < |ini| && Written(ini[i], defaults, keys) ==> SettingReadable(conv, ini[i])
    ensures var changed := Changed(ini, defaults, keys);
            forall i :: 0 <= i < |changed| ==> SettingReadable(conv, changed[i]) && changed[i].0 in Keys(st.ini)
  {
    var changed := Changed(ini, defaults, keys);
    forall i | 0 <= i < |changed|
      ensures SettingReadable(conv, changed[i]) && changed[i].0 in Keys(st.ini)
    {
      var m :| 0 <= m < |ini| && ini[m] == changed[i];
      assert changed[i].0 == Keys(ini)[m];
    }
  }

  /** A blank line and a section header change nothing. */
  lemma ReadSectionHead(conv: Conversion, st: Reading, header: string)
    requires header == CLARITY_HEADER || header == VRT_HEADER
    ensures ReadLines(conv, st, ["\n", header], 0) == (st, false)
  {
    ReadPlainLine(conv, st, "\n");
    ReadPlainLine(conv, st, header);
    assert ReadLines(conv, st, ["\n", header], 0) == ReadLines(conv, st, ["\n", header], 1);
    assert ReadLines(conv, st, ["\n", header], 1) == ReadLines(conv, st, ["\n", header], 2);
  }

  /** Reading one section of the preset: its blank line, header and settings. */
  lemma ReadSection(conv: Conversion, st: Reading, ini: Dict, defaults: Dict, keys: set<string>, header: string)
    requires header == CLARITY_HEADER || header == VRT_HEADER
    requires Keys(st.ini) == Keys(ini) && UniqueKeys(ini)
    requires forall i :: 0 <= i < |ini| && Written(ini[i], defaults, keys) ==> SettingReadable(conv, ini[i])
    ensures ReadLines(conv, st, ["\n", header] + SectionLines(ini, defaults, keys), 0)
            == (st.(ini := Overlay(st.ini, ini, defaults, keys)), false)
  {
    ChangedReadable(conv, st, ini, defaults, keys);
    ReadLinesAppend(conv, st, ["\n", header], SectionLines(ini, defaults, keys));
    ReadSectionHead(conv, st, header);
    ReadValueLines(conv, st, Changed(ini, defaults, keys));
    ApplyChanged(st.ini, ini, defaults, keys);
  }

  lemma ReadHeader(conv: Conversion, st: Reading, pre: Dict, useClarity: bool)
    requires Keys(st.preprocessor) == Keys(pre) && UniqueKeys(pre) && |pre| >= 1
    requires forall i :: 0 <= i < |pre| ==> Rereadable(pre[i])
    requires !Contains(Join(Definitions(pre), ",") + "\n", PREPROCESSOR_PREFIX)
    requires PREPROCESSOR_NAME !in Keys(st.ini) && TECHNIQUES_NAME !in Keys(st.ini) && TECHNIQUES_SORTING !in Keys(st.ini)
    requires !st.clarityFound
    ensures ReadLines(conv, st, HeaderLines(pre, useClarity), 0) == (Reading(pre, st.ini, useClarity), false)
  {
    var h := HeaderLines(pre, useClarity);
    assert h == [h[0]] + ([h[1]] + [h[2]]);
    ReadPreprocessorLine(conv, st, pre);
    var s1 := st.(preprocessor := pre);
    ReadTechniquesLine(conv, s1, TECHNIQUES_NAME, useClarity);
    HeaderNamesClarity(useClarity);
    var s2 := s1.(clarityFound := useClarity);
    ReadTechniquesLine(conv, s2, TECHNIQUES_SORTING, useClarity);
    ReadLinesAppend(conv, st, [h[0]], [h[1]] + [h[2]]);
    ReadLinesAppend(conv, s1, [h[1]], [h[2]]);
    ReadLinesShift(conv, st, [h[0]], 1);
    ReadLinesShift(conv, s1, [h[1]], 1);
    ReadLinesShift(conv, s2, [h[2]], 1);
  }

  /** The keys the preset writes: VRToolkit's, and Clarity's when Clarity is used. */
  function WrittenKeys(vrtKeys: set<string>, clarityKeys: set<string>, useClarity: bool): set<string> {
    (if useClarity then clarityKeys else {}) + vrtKeys
  }

  /** Reading the Clarity part of the preset: its section when Clarity is used, then a blank line; else nothing. */
  lemma ReadClarityPart(conv: Conversion, st: Reading, ini: Dict, defaults: Dict, clarityKeys: set<string>, useClarity: bool)
    requires Keys(st.ini) == Keys(ini) && UniqueKeys(ini)
    requires forall i :: 0 <= i < |ini| && Written(ini[i], defaults, if useClarity then clarityKeys else {})
                         ==> SettingReadable(conv, ini[i])
    ensures ReadLines(conv, st, ClarityPart(ini, defaults, clarityKeys, useClarity), 0)
            == (st.(ini := Overlay(st.ini, ini, defaults, if useClarity then clarityKeys else {})), false)
  {
    var clarity := ClarityPart(ini, defaults, clarityKeys, useClarity);
    if useClarity {
      var section := ["\n", CLARITY_HEADER] + SectionLines(ini, defaults, clarityKeys);
      assert clarity == section + ["\n"];
      ReadLinesAppend(conv, st, section, ["\n"]);
      ReadSection(conv, st, ini, defaults, clarityKeys, CLARITY_HEADER);
      var s2 := st.(ini := Overlay(st.ini, ini, defaults, clarityKeys));
      ReadPlainLine(conv, s2, "\n");
      ReadLinesShift(conv, s2, ["\n"], 1);
    } else {
      assert clarity == [];
      assert Overlay(st.ini, ini, defaults, {}) == st.ini;
    }
  }

  /**
   * The preset the writer produces reads back, from a reader that has not seen Clarity yet, as:
   * the written preprocessor definitions, the written settings over the reader's own, and the
   * Clarity flag equal to the switch the file was written with.
   */
  lemma PresetReadsBack(conv: Conversion, st: Reading, pre: Dict, ini: Dict, defaults: Dict, vrtKeys: set<string>,
                        clarityKeys: set<string>, useClarity: bool)
    requires !st.clarityFound
    requires Keys(st.preprocessor) == Keys(pre) && UniqueKeys(pre) && |pre| >= 1
    requires forall i :: 0 <= i < |pre| ==> Rereadable(pre[i])
    requires !Contains(Join(Definitions(pre), ",") + "\n", PREPROCESSOR_PREFIX)
    requires Keys(st.ini) == Keys(ini) && UniqueKeys(ini)
    requires PREPROCESSOR_NAME !in Keys(ini) && TECHNIQUES_NAME !in Keys(ini) && TECHNIQUES_SORTING !in Keys(ini)
    requires forall i :: 0 <= i < |ini| && Written(ini[i], defaults, WrittenKeys(vrtKeys, clarityKeys, useClarity))
                         ==> SettingReadable(conv, ini[i])
    ensures ReadLines(conv, st, PresetLines(pre, ini, defaults, vrtKeys, clarityKeys, useClarity), 0)
            == (Reading(pre, Overlay(st.ini, ini, defaults, WrittenKeys(vrtKeys, clarityKeys, useClarity)), useClarity), false)
  {
    var header := HeaderLines(pre, useClarity);
    var clarity := ClarityPart(ini, defaults, clarityKeys, useClarity);
    var vrt := VrtPart(ini, defaults, vrtKeys);
    ReadLinesAppend(conv, st, header + clarity, vrt);
    ReadLinesAppend(conv, st, header, clarity);
    ReadHeader(conv, st, pre, useClarity);
    var s1 := Reading(pre, st.ini, useClarity);
    ReadClarityPart(conv, s1, ini, defaults, clarityKeys, useClarity);
    var s2 := s1.(ini := Overlay(st.ini, ini, defaults, if useClarity then clarityKeys else {}));
    ReadSection(conv, s2, ini, defaults, vrtKeys, VRT_HEADER);
    OverlayUnion(st.ini, ini, defaults, if useClarity then clarityKeys else {}, vrtKeys);
  }

  /**
   * Read into a fresh toolkit, whose settings are the defaults, every setting the preset writes
   * a section for comes back equal (by Python `==`) to the value it was written with.
   */
  lemma RereadFromDefaults(defaults: Dict, ini: Dict, keys: set<string>)
    requires Keys(defaults) == Keys(ini) && UniqueKeys(ini)
    ensures forall i :: 0 <= i < |ini| && ini[i].0 in keys ==>
              Overlay(defaults, ini, defaults, keys)[i].0 == ini[i].0
              && PyEq(Overlay(defaults, ini, defaults, keys)[i].1, ini[i].1)
  {
    SameKeysUnique(ini, defaults);
    forall i | 0 <= i < |ini| && ini[i].0 in keys
      ensures Overlay(defaults, ini, defaults, keys)[i].0 == ini[i].0
      ensures PyEq(Overlay(defaults, ini, defaults, keys)[i].1, ini[i].1)
    {
      assert defaults[i].0 == Keys(defaults)[i] == ini[i].0;
      LookupAt(defaults, i);
    }
  }

  // ---------------------------------------------------------------------------------------
  // The toolkit's own tables

  /**
   * A toolkit at its defaults with one VRToolkit setting changed: the preset it writes reads
   * back, into a toolkit at the same defaults, as exactly the changed settings. Only the changed
   * setting has to be readable; the others are not written.
   */
  lemma OneChangeReadsBack(conv: Conversion, pre0: Dict, pre: Dict, t: Dict, vrtKeys: set<string>,
                           clarityKeys: set<string>, useClarity: bool, k: string, v: Value)
    requires Keys(pre0) == Keys(pre) && UniqueKeys(pre) && |pre| >= 1
    requires forall i :: 0 <= i < |pre| ==> Rereadable(pre[i])
    requires !Contains(Join(Definitions(pre), ",") + "\n", PREPROCESSOR_PREFIX)
    requires UniqueKeys(t)
    requires PREPROCESSOR_NAME !in Keys(t) && TECHNIQUES_NAME !in Keys(t) && TECHNIQUES_SORTING !in Keys(t)
    requires k in Keys(t) && k in vrtKeys && SettingReadable(conv, (k, v))
    requires PyEq(v, Lookup(t, k).value) ==> v == Lookup(t, k).value
    ensures ReadLines(conv, Reading(pre0, t, false), PresetLines(pre, Set(t, k, v), t, vrtKeys, clarityKeys, useClarity), 0)
            == (Reading(pre, Set(t, k, v), useClarity), false)
  {
    var ini := Set(t, k, v);
    var keys := WrittenKeys(vrtKeys, clarityKeys, useClarity);
    SameKeysUnique(t, ini);
    OneChangeWritten(t, k, v, keys);
    OneChangeOverlay(t, k, v, keys);
    PresetReadsBack(conv, Reading(pre0, t, false), pre, ini, t, vrtKeys, clarityKeys, useClarity);
  }

  /** Against the settings it was changed from, only the changed setting can be written. */
  lemma OneChangeWritten(t: Dict, k: string, v: Value, keys: set<string>)
    requires UniqueKeys(t)
    ensures forall i :: 0 <= i < |t| && Written(Set(t, k, v)[i], t, keys) ==> Set(t, k, v)[i] == (k, v)
  {
    forall i | 0 <= i < |t| && Set(t, k, v)[i] != (k, v)
      ensures !Written(Set(t, k, v)[i], t, keys)
    {
      LookupAt(t, i);
    }
  }

  /** A section that writes the changed setting gives back exactly the changed settings. */
  lemma OneChangeOverlay(t: Dict, k: string, v: Value, keys: set<string>)
    requires UniqueKeys(t) && k in keys && k in Keys(t)
    requires PyEq(v, Lookup(t, k).value) ==> v == Lookup(t, k).value
    ensures Overlay(t, Set(t, k, v), t, keys) == Set(t, k, v)
  {
    forall i | 0 <= i < |t|
      ensures Overlay(t, Set(t, k, v), t, keys)[i] == Set(t, k, v)[i]
    {
      LookupAt(t, i);
    }
  }

  /** A name of letters other than `f`, and underscores. */
  predicate PlainName(k: string) {
    forall j :: 0 <= j < |k| ==> 'A' <= k[j] <= 'Z' || k[j] == '_' || 'a' <= k[j] <= 'e' || 'g' <= k[j] <= 'z'
  }

  /** A preprocessor entry like the toolkit's own: a plain name with a non-negative int or the LUT file name. */
  predicate PlainDefinition(e: (string, Value)) {
    PlainName(e.0) && ((e.1.IntVal? && e.1.i >= 0) || e.1 == Str("\"lut.png\""))
  }

  lemma PlainRereadable(e: (string, Value))
    requires PlainDefinition(e)
    ensures Rereadable(e) && 'f' !in Definition(e)
  {
    assert ',' !in e.0 && '=' !in e.0 && '\n' !in e.0 && 'f' !in e.0;
    assert Definition(e) == e.0 + "=" + PyStr(e.1);
    if e.1.Str? {
      assert !IsNumeric(e.1.s) by { assert e.1.s[0] == '"'; }
    } else {
      assert forall x :: x in NatToString(e.1.i) ==> '0' <= x <= '9';
    }
  }

  /** Such definitions are rereadable, and without an `f` they cannot spell the preprocessor prefix. */
  lemma PlainDefinitionsReadBack(pre: Dict)
    requires forall i :: 0 <= i < |pre| ==> PlainDefinition(pre[i])
    ensures forall i :: 0 <= i < |pre| ==> Rereadable(pre[i])
    ensures !Contains(Join(Definitions(pre), ",") + "\n", PREPROCESSOR_PREFIX)
  {
    forall i | 0 <= i < |pre|
      ensures Rereadable(pre[i]) && 'f' !in Definitions(pre)[i]
    {
      PlainRereadable(pre[i]);
    }
    JoinFree(Definitions(pre), ",", 'f');
    assert PREPROCESSOR_PREFIX[14] == 'f';
    MissingCharNotContained(Join(Definitions(pre), ",") + "\n", PREPROCESSOR_PREFIX, 'f');
  }

  lemma PreprocessorDefaultsPlain01()
    ensures PlainDefinition(PREPROCESSOR_DEFAULTS[0]) && PlainDefinition(PREPROCESSOR_DEFAULTS[1])
  {
  }

  lemma PreprocessorDefaultsPlain23()
    ensures PlainDefinition(PREPROCESSOR_DEFAULTS[2]) && PlainDefinition(PREPROCESSOR_DEFAULTS[3])
  {
  }

  lemma PreprocessorDefaultsPlain45()
    ensures PlainDefinition(PREPROCESSOR_DEFAULTS[4]) && PlainDefinition(PREPROCESSOR_DEFAULTS[5])
  {
  }

  lemma PreprocessorDefaultsPlain67()
    ensures PlainDefinition(PREPROCESSOR_DEFAULTS[6]) && PlainDefinition(PREPROCESSOR_DEFAULTS[7])
  {
  }

  /** The toolkit's own preprocessor table: a dict of plain definitions. */
  lemma PreprocessorDefaultsPlain(pre: Dict)
    requires pre == PREPROCESSOR_DEFAULTS
    ensures UniqueKeys(pre) && |pre| >= 1
    ensures forall i :: 0 <= i < |pre| ==> PlainDefinition(pre[i])
  {
    PreprocessorDefaultsPlain01();
    PreprocessorDefaultsPlain23();
    PreprocessorDefaultsPlain45();
    PreprocessorDefaultsPlain67();
  }

  /** No key of the table starts with the letter `c`. */
  predicate KeysAvoid(d: Dict, c: char) {
    forall k :: k in Keys(d) ==> k != [] && k[0] != c
  }

  /** No key of the table starts with the first letter of a header line's name. */
  predicate NotHeaderLike(d: Dict) {
    KeysAvoid(d, 'P') && KeysAvoid(d, 'T')
  }

  lemma {:induction false} TablesAvoid(tables: seq<Dict>, k: string, c: char)
    requires forall i :: 0 <= i < |tables| ==> KeysAvoid(tables[i], c)
    ensures InTables(k, tables) ==> k != [] && k[0] != c
    decreases |tables|
  {
    if tables != [] && k !in Keys(tables[0]) {
      TablesAvoid(tables[1..], k, c);
    }
  }

  lemma VrtTablesNotHeaderLike()
    ensures NotHeaderLike(FAS_DEFAULTS) && NotHeaderLike(DITHER_DEFAULTS) && NotHeaderLike(MASK_DEFAULTS)
    ensures NotHeaderLike(AA_DEFAULTS)
  {
  }

  lemma MoreTablesNotHeaderLike()
    ensures NotHeaderLike(CAS_DEFAULTS) && NotHeaderLike(CC_DEFAULTS) && NotHeaderLike(LUT_DEFAULTS)
    ensures NotHeaderLike(CLARITY_DEFAULTS)
  {
  }

  lemma GraphicsNotHeaderLike(g: Graphics)
    requires g == GRAPHICS
    ensures forall i :: 0 <= i < |g.vrtTables| ==> NotHeaderLike(g.vrtTables[i])
    ensures NotHeaderLike(g.clarity)
  {
    VrtTablesNotHeaderLike();
    MoreTablesNotHeaderLike();
  }

  /** Only the first of the toolkit's tables has names starting with `F`. */
  lemma OnlyFasTableF(g: Graphics)
    requires g == GRAPHICS
    ensures forall i :: 1 <= i < |g.vrtTables| ==> KeysAvoid(g.vrtTables[i], 'F')
    ensures KeysAvoid(g.clarity, 'F')
  {
    assert KeysAvoid(DITHER_DEFAULTS, 'F') && KeysAvoid(MASK_DEFAULTS, 'F') && KeysAvoid(AA_DEFAULTS, 'F');
    assert KeysAvoid(CAS_DEFAULTS, 'F') && KeysAvoid(CC_DEFAULTS, 'F') && KeysAvoid(LUT_DEFAULTS, 'F');
  }

  lemma FasTable(g: Graphics)
    requires g == GRAPHICS
    ensures g.vrtTables != [] && UniqueKeys(g.vrtTables[0])
    ensures "FAS_Radius" in Keys(g.vrtTables[0]) && Lookup(g.vrtTables[0], "FAS_Radius") == Some(FloatVal(100000))
  {
    assert "FAS_Radius" == Keys(FAS_DEFAULTS)[1];
  }

  /** `FAS_Radius` is a name the reader gives back. */
  lemma FasRadiusReadable()
    ensures KeyReadable("FAS_Radius")
  {
    var k := "FAS_Radius";
    assert k[0] == 'F';
    PrefixChars(k, PREPROCESSOR_NAME);
    PrefixChars(k, TECHNIQUES_NAME);
  }

  /** The names of the header lines are not settings of such tables. */
  lemma HeaderNamesNotSettings(g: Graphics)
    requires forall i :: 0 <= i < |g.vrtTables| ==> NotHeaderLike(g.vrtTables[i])
    requires NotHeaderLike(g.clarity)
    ensures PREPROCESSOR_NAME !in Keys(AllSettings(g))
    ensures TECHNIQUES_NAME !in Keys(AllSettings(g))
    ensures TECHNIQUES_SORTING !in Keys(AllSettings(g))
  {
    forall k | k in Keys(AllSettings(g))
      ensures k != [] && k[0] != 'P' && k[0] != 'T'
    {
      AllSettingsKeys(g, k);
      TablesAvoid(g.vrtTables, k, 'P');
      TablesAvoid(g.vrtTables, k, 'T');
    }
  }

  /**
   * The round trip on tables like the toolkit's: with a float setting `k` of the first table,
   * which no later table has, set to a non-negative value, the preset written reads back, as
   * the program reads it, as exactly those settings, the definitions and the Clarity switch.
   */
  lemma TableChangeReadsBack(g: Graphics, pre: Dict, k: string, x: nat, useClarity: bool)
    requires UniqueKeys(pre) && |pre| >= 1 && forall i :: 0 <= i < |pre| ==> PlainDefinition(pre[i])
    requires forall i :: 0 <= i < |g.vrtTables| ==> NotHeaderLike(g.vrtTables[i])
    requires NotHeaderLike(g.clarity)
    requires g.vrtTables != [] && UniqueKeys(g.vrtTables[0]) && k in Keys(g.vrtTables[0])
    requires Lookup(g.vrtTables[0], k).value.FloatVal? && KeyReadable(k) && k != []
    requires forall i :: 1 <= i < |g.vrtTables| ==> KeysAvoid(g.vrtTables[i], k[0])
    requires KeysAvoid(g.clarity, k[0])
    ensures var t := AllSettings(g);
            var ini := Set(t, k, FloatVal(x));
            ReadLines(AsWritten, Reading(pre, t, false), PresetLines(pre, ini, t, KeySet(VrtSettings(g)), KeySet(g.clarity), useClarity), 0)
            == (Reading(pre, ini, useClarity), false)
  {
    var t := AllSettings(g);
    AllSettingsUnique(g);
    HeaderNamesNotSettings(g);
    PlainDefinitionsReadBack(pre);
    AllSettingsKeys(g, k);
    TablesAvoid(g.vrtTables[1..], k, k[0]);
    FirstTableLookup(g, k);
    OneChangeReadsBack(AsWritten, pre, pre, t, KeySet(VrtSettings(g)), KeySet(g.clarity), useClarity, k, FloatVal(x));
  }

  /**
   * The round trip on the toolkit's own tables: at the defaults, with `FAS_Radius` set to any
   * non-negative float, the preset written reads back, as the program reads it, into a fresh
   * toolkit as exactly those settings, the default definitions and the Clarity switch.
   */
  lemma RealPresetReadsBack(x: nat, useClarity: bool)
    ensures var t := AllSettings(GRAPHICS);
            var ini := Set(t, "FAS_Radius", FloatVal(x));
            ReadLines(AsWritten, Reading(PREPROCESSOR_DEFAULTS, t, false),
                      PresetLines(PREPROCESSOR_DEFAULTS, ini, t, KeySet(VrtSettings(GRAPHICS)), KeySet(GRAPHICS.clarity), useClarity), 0)
            == (Reading(PREPROCESSOR_DEFAULTS, ini, useClarity), false)
  {
    PreprocessorDefaultsPlain(PREPROCESSOR_DEFAULTS);
    GraphicsNotHeaderLike(GRAPHICS);
    FasTable(GRAPHICS);
    OnlyFasTableF(GRAPHICS);
    FasRadiusReadable();
    TableChangeReadsBack(GRAPHICS, PREPROCESSOR_DEFAULTS, "FAS_Radius", x, useClarity);
  }
}
