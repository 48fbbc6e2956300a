/**
 * The game's settings files as the widget sees them: the player and controller JSON documents
 * (categories of named values) and the default section of the video configuration INI, the
 * option groups of a preset that are read from and written to them, the order in which text
 * encodings are tried, the repair of the video configuration's first and last lines, and the
 * command line that starts the game.
 *
 * File contents, existence checks and decoding results are inputs; paths are strings.
 */
module LmuGame {
  import opened Common
  import opened VrToolkitIni

  // ---------------------------------------------------------------------------------------
  // Options

  /** `option.dupl`: None, one key, or a list of keys. */
  datatype Dupl = NoDupl | DuplOne(key: string) | DuplMany(keys: seq<string>)

  /**
   * The duplicate keys written with an option: `option.dupl or list()`, then `[option.dupl]` when
   * it is a string, so even the empty string names one key.
   */
  function DuplKeys(d: Dupl): seq<string> {
    match d
    case NoDupl => []
    case DuplOne(k) => [k]
    case DuplMany(ks) => ks
  }

  /** One option of a preset, with the fields the settings files touch; a value of None is unset. */
  datatype Setting = Setting(key: string, value: Option<Value>, existsInRf: bool, hidden: bool,
                             createInJson: bool, dupl: Dupl, iniInt: bool)

  /** Which settings file an option group lives in. */
  datatype Target = PlayerJson | ControllerJson | KeyboardJson | DxConfig | Reshade | WebuiSession | WebuiContent

  /** An option group (`BaseOptions`): its class name, its JSON category, its options. */
  datatype Group = Group(name: string, key: string, options: seq<Setting>, skipKeys: seq<string>,
                         mandatory: bool, target: Target)

  /** One JSON category: setting names to values, None being JSON null. */
  type Category = map<string, Option<Value>>

  /** A JSON document read from disk: category names to categories. */
  class JsonDoc {
    var categories: map<string, Category>

    constructor (categories: map<string, Category>)
      ensures this.categories == categories
    {
      this.categories := categories;
    }
  }

  /** The document as a value: None when there is none, as when reading it failed. */
  function View(doc: JsonDoc?): Option<map<string, Category>>
    reads doc
  {
    if doc == null then None else Some(doc.categories)
  }

  /** Python truthiness of the document: present and not empty. */
  predicate DocTruthy(doc: Option<map<string, Category>>) {
    doc.Some? && doc.value != map[]
  }

  // ---------------------------------------------------------------------------------------
  // Writing options into a JSON category (`_update_player_json`)

  /** The keys set to `v`, one after the other. */
  function WriteKeys(cat: Category, keys: seq<string>, v: Option<Value>): Category
    decreases |keys|
  {
    if keys == [] then cat else WriteKeys(cat, keys[..|keys| - 1], v)[keys[|keys| - 1] := v]
  }

  /** After writing, the listed keys hold `v` and every other key is as it was. */
  lemma {:induction false} WriteKeysSpec(cat: Category, keys: seq<string>, v: Option<Value>)
    ensures forall k :: k in WriteKeys(cat, keys, v) <==> k in cat || k in keys
    ensures forall k :: k in keys ==> WriteKeys(cat, keys, v)[k] == v
    ensures forall k :: k in cat && k !in keys ==> WriteKeys(cat, keys, v)[k] == cat[k]
    decreases |keys|
  {
    if keys != [] {
      var init := keys[..|keys| - 1];
      WriteKeysSpec(cat, init, v);
      assert forall k :: k in keys <==> k in init || k == keys[|keys| - 1];
    }
  }

  lemma WriteKeysSnoc(cat: Category, keys: seq<string>, k: string, v: Option<Value>)
    ensures WriteKeys(cat, keys + [k], v) == WriteKeys(cat, keys, v)[k := v]
  {
    assert (keys + [k])[..|keys|] == keys;
  }

  /** An option is written: not skipped, present in the category or to be created, and set. */
  predicate Writes(o: Setting, cat: Category, skip: seq<string>) {
    o.key !in skip && (o.key in cat || o.createInJson) && o.value.Some?
  }

  /** The keys an option writes when it does: its own and its duplicates. */
  function Touched(o: Setting): seq<string> {
    [o.key] + DuplKeys(o.dupl)
  }

  function WriteOption(cat: Category, o: Setting, skip: seq<string>): Category {
    if Writes(o, cat, skip) then WriteKeys(cat, Touched(o), o.value) else cat
  }

  /** The options of a group written in order into its category. */
  function WriteOptions(cat: Category, opts: seq<Setting>, skip: seq<string>): Category
    decreases |opts|
  {
    if opts == [] then cat
    else WriteOption(WriteOptions(cat, opts[..|opts| - 1], skip), opts[|opts| - 1], skip)
  }

  lemma WriteOptionsSnoc(cat: Category, opts: seq<Setting>, o: Setting, skip: seq<string>)
    ensures WriteOptions(cat, opts + [o], skip) == WriteOption(WriteOptions(cat, opts, skip), o, skip)
  {
    assert (opts + [o])[..|opts|] == opts;
  }

  /** Writing never removes a key. */
  lemma {:induction false} WriteOptionsGrows(cat: Category, opts: seq<Setting>, skip: seq<string>)
    ensures cat.Keys <= WriteOptions(cat, opts, skip).Keys
    decreases |opts|
  {
    if opts != [] {
      WriteOptionsGrows(cat, opts[..|opts| - 1], skip);
      var last := opts[|opts| - 1];
      WriteKeysSpec(WriteOptions(cat, opts[..|opts| - 1], skip), Touched(last), last.value);
    }
  }

  /** A key no option touches keeps its presence and its value. */
  lemma {:induction false} WriteOptionsUntouched(cat: Category, opts: seq<Setting>, skip: seq<string>, k: string)
    requires forall i :: 0 <= i < |opts| ==> k !in Touched(opts[i])
    ensures k in WriteOptions(cat, opts, skip) <==> k in cat
    ensures k in cat ==> WriteOptions(cat, opts, skip)[k] == cat[k]
    decreases |opts|
  {
    if opts != [] {
      WriteOptionsUntouched(cat, opts[..|opts| - 1], skip, k);
      var last := opts[|opts| - 1];
      WriteKeysSpec(WriteOptions(cat, opts[..|opts| - 1], skip), Touched(last), last.value);
    }
  }

  /**
   * A key that only option `i` touches ends with that option's value, when the option is written
   * (its name present in the category it starts from, or created).
   */
  lemma {:induction false} WriteOptionsSole(cat: Category, opts: seq<Setting>, skip: seq<string>, i: nat, k: string)
    requires i < |opts| && Writes(opts[i], cat, skip) && k in Touched(opts[i])
    requires forall j :: 0 <= j < |opts| && j != i ==> k !in Touched(opts[j])
    ensures k in WriteOptions(cat, opts, skip) && WriteOptions(cat, opts, skip)[k] == opts[i].value
    decreases |opts|
  {
    var init := opts[..|opts| - 1];
    var last := opts[|opts| - 1];
    var mid := WriteOptions(cat, init, skip);
    WriteKeysSpec(mid, Touched(last), last.value);
    if i == |opts| - 1 {
      WriteOptionsGrows(cat, init, skip);
      assert Writes(last, mid, skip);
    } else {
      WriteOptionsSole(cat, init, skip, i, k);
      assert k !in Touched(last);
    }
  }

  // ---------------------------------------------------------------------------------------
  // Reading options from a JSON category (`_get_options_from_player_json`)

  /** The category a group reads: `player_json.get(key, dict())`. */
  function CategoryOf(doc: map<string, Category>, key: string): Category {
    if key in doc then doc[key] else map[]
  }

  /** An option after reading: a name found in the category takes its value and exists in the game. */
  function ReadOption(o: Setting, cat: Category): (r: Setting)
    ensures o.key in cat ==> r.value == cat[o.key] && r.existsInRf
    ensures o.key !in cat ==> r == o
    ensures r.key == o.key && r.createInJson == o.createInJson && r.dupl == o.dupl && r.iniInt == o.iniInt
  {
    if o.key in cat then o.(value := cat[o.key], existsInRf := true) else o
  }

  function ReadOptions(opts: seq<Setting>, cat: Category): (r: seq<Setting>)
    ensures |r| == |opts| && forall i :: 0 <= i < |opts| ==> r[i] == ReadOption(opts[i], cat)
  {
    seq(|opts|, i requires 0 <= i < |opts| => ReadOption(opts[i], cat))
  }

  /** Some option of the group has its name in the category. */
  predicate FoundAny(opts: seq<Setting>, cat: Category) {
    exists i :: 0 <= i < |opts| && opts[i].key in cat
  }

  /**
   * Writing a group and reading it back: an option that is written, and whose keys no other
   * option of the group touches, reads back its own value and exists in the game.
   */
  lemma WriteThenRead(cat: Category, opts: seq<Setting>, skip: seq<string>, i: nat)
    requires i < |opts| && Writes(opts[i], cat, skip)
    requires forall j :: 0 <= j < |opts| && j != i ==> opts[i].key !in Touched(opts[j])
    ensures var back := ReadOptions(opts, WriteOptions(cat, opts, skip))[i];
            back.value == opts[i].value && back.existsInRf
  {
    WriteOptionsSole(cat, opts, skip, i, opts[i].key);
  }

  // ---------------------------------------------------------------------------------------
  // Video configuration (`_get_options_from_dx_config`, `_write_video_config`)

  /** Python `int(text)` on a configuration value: optional sign and ASCII digits, whitespace around; None where it raises. */
  function ParseInt(text: string): (r: Option<int>)
  {
    var t := Strip(text);
    if t != [] && (t[0] == '-' || t[0] == '+') && IsNumeric(t[1..]) then
      var magnitude: int := DigitsValue(t[1..]);
      Some(if t[0] == '-' then -magnitude else magnitude)
    else if IsNumeric(t) then Some(DigitsValue(t))
    else None
  }

  /** A run of digits parses as its value, and so does it with a minus sign in front, negated. */
  lemma ParseDigits(d: string)
    requires IsNumeric(d)
    ensures ParseInt(d) == Some(DigitsValue(d))
    ensures ParseInt("-" + d) == Some(-(DigitsValue(d) as int))
  {
    StripLineEnd(d);
    var t := "-" + d;
    assert t[0] == '-' && t[|t| - 1] == d[|d| - 1] && t[1..] == d;
    StripLineEnd(t);
  }

  /** `int(str(n)) == n`. */
  lemma ParseIntRoundTrip(n: int)
    ensures ParseInt(IntToString(n)) == Some(n)
  {
    var m: nat := if n < 0 then -n else n;
    NatToStringRoundTrip(m);
    ParseDigits(NatToString(m));
  }

  /** One option read from the default section; None where `int()` raises. */
  function DxOption(o: Setting, section: map<string, string>): (r: Option<Setting>)
    ensures o.key !in section ==> r == Some(o.(existsInRf := false, hidden := true))
    ensures o.key in section && !o.iniInt ==> r == Some(o.(value := Some(Str(section[o.key])), existsInRf := true))
    ensures o.key in section && o.iniInt ==>
              (r.None? <==> ParseInt(section[o.key]).None?)
              && (r.Some? ==> r.value == o.(value := Some(IntVal(ParseInt(section[o.key]).value)), existsInRf := true))
  {
    if o.key !in section then Some(o.(existsInRf := false, hidden := true))
    else if !o.iniInt then Some(o.(value := Some(Str(section[o.key])), existsInRf := true))
    else match ParseInt(section[o.key])
      case None => None
      case Some(n) => Some(o.(value := Some(IntVal(n)), existsInRf := true))
  }

  /** The index of the first option whose value `int()` refuses, or the number of options. */
  function FirstBadInt(opts: seq<Setting>, section: map<string, string>): (r: nat)
    ensures r <= |opts|
    ensures forall i :: 0 <= i < r ==> DxOption(opts[i], section).Some?
    ensures r < |opts| ==> DxOption(opts[r], section).None?
    decreases |opts|
  {
    if opts == [] then 0
    else if DxOption(opts[0], section).None? then 0
    else 1 + FirstBadInt(opts[1..], section)
  }

  /** The video options written into the default section: a name that is missing is reported. */
  function VideoStep(st: (map<string, string>, bool, string), o: Setting): (map<string, string>, bool, string) {
    var (section, updated, error) := st;
    if o.key !in section then (section, updated, error + "Could not locate settings key: " + o.key + " in CONFIG_DX11.ini\n")
    else if o.value.Some? then (section[o.key := PyStr(o.value.value)], true, error)
    else st
  }

  function VideoWrite(st: (map<string, string>, bool, string), opts: seq<Setting>): (map<string, string>, bool, string)
    decreases |opts|
  {
    if opts == [] then st else VideoStep(VideoWrite(st, opts[..|opts| - 1]), opts[|opts| - 1])
  }

  /** The options of the groups that live in the video configuration, group by group. */
  function DxSettings(groups: seq<Group>): seq<Setting>
    decreases |groups|
  {
    if groups == [] then []
    else DxSettings(groups[..|groups| - 1])
         + (if groups[|groups| - 1].target == DxConfig then groups[|groups| - 1].options else [])
  }

  lemma VideoWriteSnoc(st: (map<string, string>, bool, string), opts: seq<Setting>, o: Setting)
    ensures VideoWrite(st, opts + [o]) == VideoStep(VideoWrite(st, opts), o)
  {
    assert (opts + [o])[..|opts|] == opts;
  }

  /** Writing never removes a name from the section. */
  lemma {:induction false} VideoWriteKeys(st: (map<string, string>, bool, string), opts: seq<Setting>)
    ensures VideoWrite(st, opts).0.Keys == st.0.Keys
    decreases |opts|
  {
    if opts != [] {
      VideoWriteKeys(st, opts[..|opts| - 1]);
    }
  }

  /** A name that only option `i` writes holds `str()` of that option's value. */
  lemma {:induction false} VideoWriteSole(st: (map<string, string>, bool, string), opts: seq<Setting>, i: nat)
    requires i < |opts| && opts[i].key in st.0 && opts[i].value.Some?
    requires forall j :: 0 <= j < |opts| && j != i ==> opts[j].key != opts[i].key
    ensures opts[i].key in VideoWrite(st, opts).0
    ensures VideoWrite(st, opts).0[opts[i].key] == PyStr(opts[i].value.value)
    decreases |opts|
  {
    var init := opts[..|opts| - 1];
    VideoWriteKeys(st, init);
    if i < |opts| - 1 {
      VideoWriteSole(st, init, i);
    }
  }

  /**
   * The video configuration written from a preset and read back: an int option (whose name the
   * section holds and no other option shares) reads back its own number.
   */
  lemma VideoRoundTrip(section: map<string, string>, opts: seq<Setting>, i: nat, n: int)
    requires i < |opts| && opts[i].key in section && opts[i].value == Some(IntVal(n)) && opts[i].iniInt
    requires forall j :: 0 <= j < |opts| && j != i ==> opts[j].key != opts[i].key
    ensures var written := VideoWrite((section, false, ""), opts).0;
            DxOption(opts[i], written) == Some(opts[i].(existsInRf := true))
  {
    VideoWriteSole((section, false, ""), opts, i);
    ParseIntRoundTrip(n);
  }

  // ---------------------------------------------------------------------------------------
  // Text encodings (`read_player_json_dict`)

  /** What opening and decoding the file with one encoding gives. */
  datatype ReadOutcome = Decoded(doc: map<string, Category>) | DecodeError | Failed(message: string)

  const DEFAULT_ENCODINGS: seq<string> := ["utf-8", "cp1252"]

  /** The first occurrence of `x` removed (Python `list.remove`). */
  function RemoveFirst(s: seq<string>, x: string): (r: seq<string>)
    requires x in s
    ensures |r| == |s| - 1
    ensures forall y :: y in r ==> y in s
    ensures forall y :: y in s && y != x ==> y in r
    decreases |s|
  {
    if s[0] == x then s[1..] else [s[0]] + RemoveFirst(s[1..], x)
  }

  /** The list the reader pops from: the defaults, with the requested encoding moved or added to the end. */
  function EncodingList(encoding: Option<string>): seq<string> {
    if encoding.None? || encoding.value == "" then DEFAULT_ENCODINGS
    else (if encoding.value in DEFAULT_ENCODINGS then RemoveFirst(DEFAULT_ENCODINGS, encoding.value) else DEFAULT_ENCODINGS)
         + [encoding.value]
  }

  function Reversed(s: seq<string>): (r: seq<string>)
    ensures |r| == |s| && forall i :: 0 <= i < |s| ==> r[i] == s[|s| - 1 - i]
    decreases |s|
  {
    if s == [] then [] else [s[|s| - 1]] + Reversed(s[..|s| - 1])
  }

  /** The encodings in the order they are tried: the list popped from its end. */
  function TryOrder(encoding: Option<string>): seq<string> {
    Reversed(EncodingList(encoding))
  }

  /** The encodings tried, case by case: a requested default goes first, another encoding goes before both. */
  lemma TryOrderCases(encoding: Option<string>)
    ensures TryOrder(encoding)
            == if encoding.None? || encoding.value == "" then ["cp1252", "utf-8"]
               else if encoding.value == "utf-8" then ["utf-8", "cp1252"]
               else if encoding.value == "cp1252" then ["cp1252", "utf-8"]
               else [encoding.value, "cp1252", "utf-8"]
  {
    var ls := EncodingList(encoding);
    if encoding.Some? && encoding.value != "" {
      var e := encoding.value;
      if e == "utf-8" {
        assert ls == ["cp1252", "utf-8"];
      } else if e == "cp1252" {
        assert ls == ["utf-8", "cp1252"];
      } else {
        assert ls == ["utf-8", "cp1252", e];
      }
    }
  }

  /**
   * The requested encoding is tried first; both defaults are tried; no encoding is tried twice.
   * Without a request, cp1252 comes before utf-8.
   */
  lemma TryOrderShape(encoding: Option<string>)
    ensures var order := TryOrder(encoding);
            (encoding.Some? && encoding.value != "" ==> |order| >= 1 && order[0] == encoding.value)
            && "utf-8" in order && "cp1252" in order
            && (forall i, j :: 0 <= i < j < |order| ==> order[i] != order[j])
            && (encoding.None? || encoding.value == "" ==> order == ["cp1252", "utf-8"])
  {
    TryOrderCases(encoding);
    DefaultsDiffer();
  }

  lemma DefaultsDiffer()
    ensures "cp1252" != "utf-8"
  {
    assert "cp1252"[0] != "utf-8"[0];
  }

  /** What the reader gives from the encodings `order[k..]`: the first decoded document, and the failures before it. */
  function TryFrom(order: seq<string>, outcome: string -> ReadOutcome, fileName: string, k: nat)
    : (r: (Option<map<string, Category>>, string))
    requires k <= |order|
    decreases |order| - k
  {
    if k == |order| then (None, "")
    else match outcome(order[k])
      case Decoded(doc) => (Some(doc), "")
      case DecodeError => TryFrom(order, outcome, fileName, k + 1)
      case Failed(m) =>
        var rest := TryFrom(order, outcome, fileName, k + 1);
        (rest.0, ReadFailure(fileName, m) + rest.1)
  }

  /** Popping the last element of a prefix leaves the next shorter prefix. */
  lemma PopLast(all: seq<string>, ls: seq<string>)
    requires ls != [] && |ls| <= |all| && ls == all[..|ls|]
    ensures ls[|ls| - 1] == Reversed(all)[|all| - |ls|] && ls[..|ls| - 1] == all[..|ls| - 1]
  {
  }

  /** A failed encoding adds its message in front of what the later ones add. */
  lemma TryFailedStep(order: seq<string>, outcome: string -> ReadOutcome, fileName: string, k: nat, error: string)
    requires k < |order| && outcome(order[k]).Failed?
    ensures var now, next := TryFrom(order, outcome, fileName, k), TryFrom(order, outcome, fileName, k + 1);
            now.0 == next.0
            && error + now.1 == (error + ReadFailure(fileName, outcome(order[k]).message)) + next.1
  {
    AppendAssoc(error, ReadFailure(fileName, outcome(order[k]).message), TryFrom(order, outcome, fileName, k + 1).1);
  }

  function ReadFailure(fileName: string, message: string): string {
    "Could not read " + fileName + " file! " + message + "\n"
  }

  /** The document comes from the first encoding that decodes it; none does, and there is none. */
  lemma {:induction false} TryFromFirst(order: seq<string>, outcome: string -> ReadOutcome, fileName: string, k: nat)
    requires k <= |order|
    ensures var r := TryFrom(order, outcome, fileName, k);
            r.0.Some? <==> exists j :: k <= j < |order| && outcome(order[j]).Decoded?
    ensures var r := TryFrom(order, outcome, fileName, k);
            forall j :: k <= j < |order| && outcome(order[j]).Decoded?
                        && (forall l :: k <= l < j ==> !outcome(order[l]).Decoded?)
                        ==> r.0 == Some(outcome(order[j]).doc)
    decreases |order| - k
  {
    if k < |order| {
      TryFromFirst(order, outcome, fileName, k + 1);
      if !outcome(order[k]).Decoded? {
        var r := TryFrom(order, outcome, fileName, k);
        if r.0.Some? {
          var j :| k + 1 <= j < |order| && outcome(order[j]).Decoded?;
          assert k <= j;
        }
      }
    }
  }

  // ---------------------------------------------------------------------------------------
  // The video configuration's lines (`_write_video_config`)

  /** Python `s.rstrip("\n")`. */
  function TrimNewlines(s: string): (r: string)
    ensures r == [] || r[|r| - 1] != '\n'
    ensures |r| <= |s| && s == r + Repeat('\n', |s| - |r|)
    decreases |s|
  {
    if s != [] && s[|s| - 1] == '\n' then
      var r := TrimNewlines(s[..|s| - 1]);
      assert s == s[..|s| - 1] + ['\n'];
      assert Repeat('\n', |s| - |r|) == Repeat('\n', |s| - 1 - |r|) + ['\n'];
      r
    else
      assert Repeat('\n', 0) == [];
      s
  }

  /**
   * The lines written back: the first line restored in front, a last line that is a lone newline
   * dropped, and the trailing newlines of the new last line removed.  None where the list runs
   * empty and indexing it raises.
   */
  function RestoredLines(first: string, lines: seq<string>): (r: Option<seq<string>>)
    ensures r.None? <==> lines == [] && first == "\n"
    ensures r.Some? ==>
              var all := [first] + lines;
              var kept := if all[|all| - 1] == "\n" then |all| - 1 else |all|;
              |r.value| == kept && r.value[..kept - 1] == all[..kept - 1]
              && r.value[kept - 1] == TrimNewlines(all[kept - 1])
              && (r.value[kept - 1] == [] || r.value[kept - 1][|r.value[kept - 1]| - 1] != '\n')
  {
    var all := [first] + lines;
    var kept := if all[|all| - 1] == "\n" then all[..|all| - 1] else all;
    if kept == [] then None
    else Some(kept[..|kept| - 1] + [TrimNewlines(kept[|kept| - 1])])
  }

  // ---------------------------------------------------------------------------------------
  // The launch command (`run_rfactor`)

  const GAME_EXECUTABLE := "Le Mans Ultimate.exe"
  const LMU_APPID := "2399420"
  const DEFAULT_ADDRESS := "localhost"
  const DEFAULT_PORT := "64297"

  /**
   * The fields of `server_info` the launch reads: its id, the password (None when absent) and
   * whether to remember it, the address list (None when absent) and the port's text (None when absent).
   */
  datatype ServerInfo = ServerInfo(id: string, password: Option<string>, passwordRemember: bool,
                                   address: Option<seq<string>>, port: Option<string>)

  /** Python `f"{p}"` for an optional string. */
  function OptText(p: Option<string>): string {
    if p.None? then "None" else p.value
  }

  function PasswordTruthy(p: Option<string>): bool {
    p.Some? && p.value != ""
  }

  /** The `+connect=` argument as the source builds it: the password slot renders even a missing password. */
  function ConnectArgAsWritten(ip: string, port: string, p: Option<string>): string {
    "+connect=" + (if PasswordTruthy(p) then ":" else "") + OptText(p) + (if PasswordTruthy(p) then "@" else "") + ip + ":" + port
  }

  /** Without a password the argument names `None` as part of the address. */
  lemma ConnectWithoutPasswordAsWritten()
    ensures ConnectArgAsWritten(DEFAULT_ADDRESS, DEFAULT_PORT, None) == "+connect=Nonelocalhost:64297"
  {
  }

  /** The `+connect=` argument as evidently intended: `:password@` only when there is a password. */
  function ConnectArg(ip: string, port: string, p: Option<string>): (r: string)
    ensures PasswordTruthy(p) ==> r == "+connect=:" + p.value + "@" + ip + ":" + port
    ensures !PasswordTruthy(p) ==> r == "+connect=" + ip + ":" + port
  {
    "+connect=" + (if PasswordTruthy(p) then ":" + p.value + "@" else "") + ip + ":" + port
  }

  /** The corrected argument is the written one whenever there is a password, and never mentions a missing one. */
  lemma ConnectArgAgrees(ip: string, port: string, p: Option<string>)
    ensures PasswordTruthy(p) ==> ConnectArg(ip, port, p) == ConnectArgAsWritten(ip, port, p)
    ensures p == Some("") ==> ConnectArg(ip, port, p) == ConnectArgAsWritten(ip, port, p)
    ensures p.None? ==> ConnectArgAsWritten(ip, port, p) == "+connect=None" + ip + ":" + port
                        && ConnectArg(ip, port, p) == "+connect=" + ip + ":" + port
  {
  }

  /** What the launch does: start the command line, refuse (result False), or raise. */
  datatype Launch = Launched(argv: seq<string>) | Refused | Raised

  /** Launch method codes: 0 Steam, 1 executable, 2 Steam in VR, 3 executable in VR. */
  predicate ViaExecutable(m: Option<int>) { m == Some(1) || m == Some(3) }
  predicate ViaSteam(m: Option<int>) { m == Some(0) || m == Some(2) }
  predicate InVr(m: Option<int>) { m == Some(2) || m == Some(3) }

  /** The multiplayer arguments, or None where the address list is empty and `[0]` raises. */
  function ServerArgs(s: ServerInfo): Option<seq<string>> {
    var address := if s.address.None? then [DEFAULT_ADDRESS] else s.address.value;
    if address == [] then None
    else Some(["+multiplayer", ConnectArgAsWritten(address[0], s.port.GetOr(DEFAULT_PORT), s.password)])
  }

  /**
   * The command line for a launch method: Steam's `-applaunch` for methods 0 and 2, the game
   * executable otherwise; `+VR` for methods 2 and 3; the multiplayer arguments with a server.
   */
  function LaunchCommand(m: Option<int>, exe: string, exeExists: bool, steamExe: string, steamExists: bool,
                         server: Option<ServerInfo>): (r: Launch)
    ensures r.Refused? <==> (ViaExecutable(m) && !exeExists) || (ViaSteam(m) && !steamExists)
    ensures r.Raised? <==> !r.Refused? && server.Some? && ServerArgs(server.value).None?
    ensures r.Launched? ==>
              var base := if ViaSteam(m) then [steamExe, "-applaunch", LMU_APPID] else [exe];
              var vr := if InVr(m) then ["+VR"] else [];
              r.argv == base + vr + (if server.Some? then ServerArgs(server.value).value else [])
  {
    if ViaExecutable(m) && !exeExists then Refused
    else if ViaSteam(m) && !steamExists then Refused
    else
      var base := if ViaSteam(m) then [steamExe, "-applaunch", LMU_APPID] else [exe];
      var vr := if InVr(m) then ["+VR"] else [];
      if server.None? then Launched(base + vr)
      else match ServerArgs(server.value)
        case None => Raised
        case Some(args) => Launched(base + vr + args)
  }

  /** `+VR` is the argument after the launcher exactly for the VR methods, and the launcher is the game only without Steam. */
  lemma LaunchArguments(m: Option<int>, exe: string, steamExe: string, server: Option<ServerInfo>)
    ensures var r := LaunchCommand(m, exe, true, steamExe, true, server);
            var head := if ViaSteam(m) then 3 else 1;
            (r.Launched? || r.Raised?)
            && (r.Launched? ==> |r.argv| >= head
                                && (r.argv[0] == if ViaSteam(m) then steamExe else exe)
                                && (InVr(m) <==> |r.argv| > head && r.argv[head] == "+VR")
                                && (server.None? ==> |r.argv| == head + (if InVr(m) then 1 else 0)))
  {
    var r := LaunchCommand(m, exe, true, steamExe, true, server);
    if r.Launched? && !InVr(m) && |r.argv| > (if ViaSteam(m) then 3 else 1) {
      assert server.Some?;
      assert r.argv[if ViaSteam(m) then 3 else 1] == "+multiplayer";
    }
  }

  // ---------------------------------------------------------------------------------------
  // The player object

  const BIN_DIR_ERROR := "Could not locate Le Mans Ultimate Bin directory.\n"

  function CategoryError(key: string): string {
    "Could not locate CATEGORY settings key: " + key + " in <Settings>.JSON.\n"
  }

  function ReadError(name: string): string {
    "Could not read LMU settings for " + name + "\n"
  }

  /** A target group that makes reading fail: mandatory, and nothing of it found. */
  predicate FailsRead(g: Group, target: Target, doc: Option<map<string, Category>>) {
    g.target == target && g.mandatory && !(DocTruthy(doc) && FoundAny(g.options, CategoryOf(doc.value, g.key)))
  }

  /** The index of the first group of the target that fails, or the number of groups. */
  function FirstFailure(groups: seq<Group>, target: Target, doc: Option<map<string, Category>>): (r: nat)
    ensures r <= |groups|
    ensures forall i :: 0 <= i < r ==> !FailsRead(groups[i], target, doc)
    ensures r < |groups| ==> FailsRead(groups[r], target, doc)
    decreases |groups|
  {
    if groups == [] then 0
    else if FailsRead(groups[0], target, doc) then 0
    else 1 + FirstFailure(groups[1..], target, doc)
  }

  /** A group after reading from a document: unchanged when the document is empty or missing. */
  function ReadGroup(g: Group, doc: Option<map<string, Category>>): Group {
    if DocTruthy(doc) then g.(options := ReadOptions(g.options, CategoryOf(doc.value, g.key))) else g
  }

  /** The groups after reading the target's groups before index `upto`. */
  function ReadTarget(groups: seq<Group>, target: Target, doc: Option<map<string, Category>>, upto: nat): (r: seq<Group>)
    ensures |r| == |groups|
  {
    seq(|groups|, i requires 0 <= i < |groups| =>
      if i < upto && groups[i].target == target then ReadGroup(groups[i], doc) else groups[i])
  }

  class RfactorPlayer {
    /** The option groups of `RfactorPlayer.Options`. */
    var groups: seq<Group>
    var error: string
    var isValid: bool

    constructor (groups: seq<Group>)
      ensures this.groups == groups && error == "" && !isValid
    {
      this.groups := groups;
      error := "";
      isValid := false;
    }

    /**
     * `_update_player_json`: False for an empty or missing document and, with a message, for a
     * missing category; otherwise every written option of the group goes into its category.
     */
    method UpdatePlayerJson(doc: JsonDoc?, g: Group) returns (ok: bool)
      modifies this`error, doc
      ensures ok <==> DocTruthy(old(View(doc))) && g.key in old(View(doc)).value
      ensures ok ==> doc.categories == old(doc.categories)[g.key := WriteOptions(old(doc.categories)[g.key], g.options, g.skipKeys)]
      ensures !ok && doc != null ==> doc.categories == old(doc.categories)
      ensures error == old(error) + (if DocTruthy(old(View(doc))) && g.key !in old(View(doc)).value then CategoryError(g.key) else "")
    {
      if doc == null || doc.categories == map[] {
        return false;
      }
      if g.key !in doc.categories {
        error := error + CategoryError(g.key);
        return false;
      }
      var cat := doc.categories[g.key];
      ghost var start := cat;
      var i := 0;
      while i < |g.options|
        invariant i <= |g.options|
        invariant cat == WriteOptions(start, g.options[..i], g.skipKeys)
        invariant doc.categories == old(doc.categories) && error == old(error)
      {
        var o := g.options[i];
        assert g.options[..i + 1] == g.options[..i] + [o];
        WriteOptionsSnoc(start, g.options[..i], o, g.skipKeys);
        cat := WriteOptionInto(cat, o, g.skipKeys);
        i := i + 1;
      }
      assert g.options[..i] == g.options;
      doc.categories := doc.categories[g.key := cat];
      ok := true;
    }

    /** One pass of the loop of `_update_player_json`: the option, and its duplicates, into the category. */
    static method WriteOptionInto(cat0: Category, o: Setting, skip: seq<string>) returns (cat: Category)
      ensures cat == WriteOption(cat0, o, skip)
    {
      cat := cat0;
      if o.key in skip {
      } else if o.key !in cat && !o.createInJson {
      } else if o.value.None? {
      } else {
        cat := cat[o.key := o.value];
        var dupl := DuplKeys(o.dupl);
        ghost var touched := Touched(o);
        assert touched[..1] == [] + [o.key];
        WriteKeysSnoc(cat0, [], o.key, o.value);
        var j := 0;
        while j < |dupl|
          invariant j <= |dupl| && |touched| == |dupl| + 1
          invariant cat == WriteKeys(cat0, touched[..j + 1], o.value)
        {
          assert touched[..j + 2] == touched[..j + 1] + [dupl[j]];
          WriteKeysSnoc(cat0, touched[..j + 1], dupl[j], o.value);
          cat := cat[dupl[j] := o.value];
          j := j + 1;
        }
        assert touched[..j + 1] == touched;
      }
    }

    /** `_get_options_from_player_json`: true iff some option's name is in the group's category. */
    method GetOptionsFromPlayerJson(gi: nat, doc: JsonDoc?) returns (updated: bool)
      requires gi < |groups|
      modifies this`groups
      ensures updated <==> DocTruthy(View(doc)) && FoundAny(old(groups[gi]).options, CategoryOf(View(doc).value, old(groups[gi]).key))
      ensures groups == old(groups)[gi := ReadGroup(old(groups[gi]), View(doc))]
    {
      if doc == null || doc.categories == map[] {
        assert groups == groups[gi := groups[gi]];
        return false;
      }
      var g := groups[gi];
      var cat := CategoryOf(doc.categories, g.key);
      var opts := g.options;
      updated := false;
      var i := 0;
      while i < |opts|
        invariant i <= |opts| && |opts| == |g.options|
        invariant forall j :: 0 <= j < |opts| ==> opts[j] == if j < i then ReadOption(g.options[j], cat) else g.options[j]
        invariant updated <==> exists j :: 0 <= j < i && g.options[j].key in cat
        invariant groups == old(groups)
      {
        var o := opts[i];
        if o.key in cat {
          opts := opts[i := o.(value := cat[o.key], existsInRf := true)];
          updated := true;
        }
        i := i + 1;
      }
      assert opts == ReadOptions(g.options, cat);
      assert DocTruthy(View(doc)) && View(doc).value == doc.categories;
      assert ReadGroup(g, View(doc)) == g.(options := opts);
      groups := groups[gi := g.(options := opts)];
    }

    /**
     * `_read_options_from_target`: the target's groups are read in order; the first mandatory one
     * that finds nothing stops the reading, with a message, an invalid player and False.
     */
    method ReadOptionsFromTarget(target: Target, doc: JsonDoc?) returns (ok: bool)
      modifies this`groups, this`error, this`isValid
      ensures var stop := FirstFailure(old(groups), target, View(doc));
              (ok <==> stop == |old(groups)|)
              && groups == ReadTarget(old(groups), target, View(doc), if ok then stop else stop + 1)
              && (ok ==> error == old(error) && isValid == old(isValid))
              && (!ok ==> error == old(error) + ReadError(old(groups)[stop].name) && !isValid)
    {
      var start := groups;
      var stop := ReadTargetGroups(target, doc);
      if stop < |groups| {
        error := error + ReadError(start[stop].name);
        isValid := false;
        return false;
      }
      ok := true;
    }

    /**
     * The loop of `_read_options_from_target`: the target's groups are read in order up to and
     * including the first failing one, whose index is returned (the number of groups when none fails).
     */
    method ReadTargetGroups(target: Target, doc: JsonDoc?) returns (stop: nat)
      modifies this`groups
      ensures stop == FirstFailure(old(groups), target, View(doc))
      ensures groups == ReadTarget(old(groups), target, View(doc), if stop == |old(groups)| then stop else stop + 1)
    {
      ghost var start := groups;
      ghost var view := View(doc);
      var i := 0;
      while i < |groups|
        invariant |groups| == |start| && i <= |groups|
        invariant groups == ReadTarget(start, target, view, i)
        invariant forall j :: 0 <= j < i ==> !FailsRead(start[j], target, view)
      {
        ReadTargetStep(start, target, view, i);
        if groups[i].target == target {
          assert groups[i] == start[i];
          var failed := ReadTargetGroup(i, target, doc);
          if failed {
            FirstFailureAt(start, target, view, i);
            return i;
          }
        }
        i := i + 1;
      }
      FirstFailureNone(start, target, view);
      stop := i;
    }

    /** One group of the target inside the loop of `_read_options_from_target`: read it, and tell whether it failed. */
    method ReadTargetGroup(i: nat, target: Target, doc: JsonDoc?) returns (failed: bool)
      requires i < |groups| && groups[i].target == target
      modifies this`groups
      ensures failed <==> FailsRead(old(groups[i]), target, View(doc))
      ensures groups == old(groups)[i := ReadGroup(old(groups[i]), View(doc))]
    {
      var mandatory := groups[i].mandatory;
      var updated := GetOptionsFromPlayerJson(i, doc);
      failed := !updated && mandatory;
    }

    /**
     * `_get_options_from_dx_config`: for a configuration that was read, a missing name hides its
     * option, a present one gives its value (an int for int options); `int()` raising stops it.
     */
    method GetOptionsFromDxConfig(gi: nat, config: Option<map<string, string>>) returns (updated: bool, raised: bool)
      requires gi < |groups|
      modifies this`groups
      ensures config.None? ==> !updated && !raised && groups == old(groups)
      ensures config.Some? ==>
                var opts := old(groups[gi]).options;
                var stop := FirstBadInt(opts, config.value);
                (raised <==> stop < |opts|)
                && (!raised ==> (updated <==> exists j :: 0 <= j < |opts| && opts[j].key in config.value))
                && |groups| == |old(groups)|
                && (forall k :: 0 <= k < |groups| && k != gi ==> groups[k] == old(groups[k]))
                && groups[gi].options == seq(|opts|, j requires 0 <= j < |opts| =>
                                               if j < stop then DxOption(opts[j], config.value).value else opts[j])
                && groups[gi] == old(groups[gi]).(options := groups[gi].options)
    {
      if config.None? {
        return false, false;
      }
      var g := groups[gi];
      var opts;
      opts, updated, raised := ReadDxOptions(g.options, config.value);
      groups := groups[gi := g.(options := opts)];
    }

    /** The loop of `_get_options_from_dx_config` over one group's options, up to the first `int()` that raises. */
    static method ReadDxOptions(options: seq<Setting>, section: map<string, string>)
      returns (opts: seq<Setting>, updated: bool, raised: bool)
      ensures raised <==> FirstBadInt(options, section) < |options|
      ensures !raised ==> (updated <==> exists j :: 0 <= j < |options| && options[j].key in section)
      ensures |opts| == |options|
      ensures forall j :: 0 <= j < |options| ==>
                opts[j] == if j < FirstBadInt(options, section) then DxOption(options[j], section).value else options[j]
    {
      opts := options;
      ghost var stop := FirstBadInt(options, section);
      updated, raised := false, false;
      var i := 0;
      while i < |opts|
        invariant i <= stop && |opts| == |options|
        invariant forall j :: 0 <= j < |opts| ==> opts[j] == if j < i then DxOption(options[j], section).value else options[j]
        invariant updated <==> exists j :: 0 <= j < i && options[j].key in section
      {
        var o := opts[i];
        if o.key !in section {
          opts := opts[i := o.(existsInRf := false, hidden := true)];
        } else {
          var value := Str(section[o.key]);
          if o.iniInt {
            var n := ParseInt(section[o.key]);
            if n.None? {
              raised := true;
              return;
            }
            value := IntVal(n.value);
          }
          opts := opts[i := o.(value := Some(value), existsInRf := true)];
          updated := true;
        }
        i := i + 1;
      }
    }

    /**
     * The option loop of `_write_video_config`: each video option whose name the default section
     * holds takes `str()` of its value; a missing name is reported; says whether anything was set.
     */
    method WriteVideoOptions(preset: seq<Group>, section0: map<string, string>) returns (section: map<string, string>, updated: bool)
      modifies this`error
      ensures (section, updated, error) == VideoWrite((section0, false, old(error)), DxSettings(preset))
    {
      section, updated := section0, false;
      var gi := 0;
      while gi < |preset|
        invariant gi <= |preset|
        invariant (section, updated, error) == VideoWrite((section0, false, old(error)), DxSettings(preset[..gi]))
      {
        var g := preset[gi];
        assert preset[..gi + 1][..gi] == preset[..gi];
        ghost var done := DxSettings(preset[..gi]);
        assert DxSettings(preset[..gi + 1]) == done + (if g.target == DxConfig then g.options else []);
        if g.target == DxConfig {
          section, updated := WriteVideoGroup((section0, false, old(error)), done, g.options, section, updated);
        } else {
          assert done + [] == done;
        }
        gi := gi + 1;
      }
      assert preset[..gi] == preset;
    }

    /** The options of one video group, written after the options `done` of the groups before it. */
    method WriteVideoGroup(ghost init: (map<string, string>, bool, string), ghost done: seq<Setting>,
                           options: seq<Setting>, section0: map<string, string>, updated0: bool)
      returns (section: map<string, string>, updated: bool)
      requires (section0, updated0, error) == VideoWrite(init, done)
      modifies this`error
      ensures (section, updated, error) == VideoWrite(init, done + options)
    {
      section, updated := section0, updated0;
      assert done + options[..0] == done;
      var oi := 0;
      while oi < |options|
        invariant oi <= |options|
        invariant (section, updated, error) == VideoWrite(init, done + options[..oi])
      {
        var o := options[oi];
        assert done + options[..oi + 1] == (done + options[..oi]) + [o];
        VideoWriteSnoc(init, done + options[..oi], o);
        if o.key !in section {
          error := error + "Could not locate settings key: " + o.key + " in CONFIG_DX11.ini\n";
        } else if o.value.Some? {
          section := section[o.key := PyStr(o.value.value)];
          updated := true;
        }
        oi := oi + 1;
      }
      assert options[..oi] == options;
    }

    /** `run_rfactor`: without the bin directory, a message and False; otherwise the command line of the launch. */
    method RunRfactor(m: Option<int>, binDirExists: bool, exe: string, exeExists: bool, steamExe: string,
                      steamExists: bool, server: Option<ServerInfo>) returns (r: Launch)
      modifies this`error
      ensures !binDirExists ==> r == Refused && error == old(error) + BIN_DIR_ERROR
      ensures binDirExists ==> r == LaunchCommand(m, exe, exeExists, steamExe, steamExists, server) && error == old(error)
    {
      if !binDirExists {
        error := error + BIN_DIR_ERROR;
        return Refused;
      }
      if ViaExecutable(m) && !exeExists {
        return Refused;
      }
      var cmd := [exe];
      if ViaSteam(m) {
        if !steamExists {
          return Refused;
        }
        cmd := [steamExe, "-applaunch", LMU_APPID];
      }
      if InVr(m) {
        cmd := cmd + ["+VR"];
      }
      if server.Some? {
        var address := if server.value.address.None? then [DEFAULT_ADDRESS] else server.value.address.value;
        if address == [] {
          return Raised;
        }
        var ip, port := address[0], server.value.port.GetOr(DEFAULT_PORT);
        cmd := cmd + ["+multiplayer", ConnectArgAsWritten(ip, port, server.value.password)];
      }
      r := Launched(cmd);
    }

    /**
     * `read_player_json_dict`: nothing for a file that is missing; otherwise the encodings are
     * tried in order until one decodes the document, each other failure adding a message.
     */
    method ReadPlayerJsonDict(fileExists: bool, fileName: string, encoding: Option<string>,
                              outcome: string -> ReadOutcome) returns (doc: Option<map<string, Category>>)
      modifies this`error
      ensures !fileExists ==> doc.None? && error == old(error)
      ensures fileExists ==> (doc, error) == (TryFrom(TryOrder(encoding), outcome, fileName, 0).0,
                                              old(error) + TryFrom(TryOrder(encoding), outcome, fileName, 0).1)
    {
      if !fileExists {
        return None;
      }
      // the defaults, the requested encoding removed and appended, popped from the end
      var ls := EncodingList(encoding);
      ghost var all := ls;
      ghost var order := TryOrder(encoding);
      ghost var first := TryFrom(order, outcome, fileName, 0);
      while ls != []
        invariant |ls| <= |all| && ls == all[..|ls|]
        invariant first.0 == TryFrom(order, outcome, fileName, |all| - |ls|).0
        invariant old(error) + first.1 == error + TryFrom(order, outcome, fileName, |all| - |ls|).1
        decreases |ls|
      {
        ghost var k := |all| - |ls|;
        var enc := ls[|ls| - 1];
        PopLast(all, ls);
        ls := ls[..|ls| - 1];
        match outcome(enc)
        case Decoded(d) =>
          assert TryFrom(order, outcome, fileName, k) == (Some(d), "");
          AppendEmpty(error);
          return Some(d);
        case DecodeError =>
        case Failed(message) =>
          TryFailedStep(order, outcome, fileName, k, error);
          error := error + ReadFailure(fileName, message);
      }
      AppendEmpty(error);
      doc := None;
    }
  }

  lemma ReadTargetStep(groups: seq<Group>, target: Target, doc: Option<map<string, Category>>, i: nat)
    requires i < |groups|
    ensures ReadTarget(groups, target, doc, i)[i] == groups[i]
    ensures ReadTarget(groups, target, doc, i + 1)
            == ReadTarget(groups, target, doc, i)[i := if groups[i].target == target then ReadGroup(groups[i], doc) else groups[i]]
  {
  }

  lemma FirstFailureAt(groups: seq<Group>, target: Target, doc: Option<map<string, Category>>, i: nat)
    requires i < |groups| && FailsRead(groups[i], target, doc)
    requires forall j :: 0 <= j < i ==> !FailsRead(groups[j], target, doc)
    ensures FirstFailure(groups, target, doc) == i
  {
  }

  lemma FirstFailureNone(groups: seq<Group>, target: Target, doc: Option<map<string, Category>>)
    requires forall j :: 0 <= j < |groups| ==> !FailsRead(groups[j], target, doc)
    ensures FirstFailure(groups, target, doc) == |groups|
  {
  }
}
