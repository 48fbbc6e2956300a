/**
 * The replay folder: replay files (`*.Vcr`) listed with a type read from their names and
 * sorted newest first, and the deletion of a list of replays, which collects one message per
 * replay that could not be deleted.
 *
 * The folder listing and the files on disk are inputs; a file whose removal fails is given with
 * the message it fails with.
 */
module Rf2Replays {
  import opened Common
  import opened Patterns

  const REPLAY_FILE_SUFFIX := ".Vcr"

  // ---------------------------------------------------------------------------------------
  // Replay types

  /** `HOT\sLAP` */
  const HOT_LAP: seq<CharClass> := [Lit('H'), Lit('O'), Lit('T'), Space, Lit('L'), Lit('A'), Lit('P')]
  /** `Q\d\s` */
  const QUALY: seq<CharClass> := [Lit('Q'), Digit, Space]
  /** `P\d\s` */
  const PRACTICE: seq<CharClass> := [Lit('P'), Digit, Space]
  /** `R\d\s` */
  const RACE: seq<CharClass> := [Lit('R'), Digit, Space]
  /** `WU\s\d` */
  const WARMUP: seq<CharClass> := [Lit('W'), Lit('U'), Space, Digit]

  /**
   * The type of a replay from its file name: the first of hot lap (4), qualifying (1),
   * practice (2), race (3) and warm-up (5) whose pattern occurs in the first line, else 0.
   */
  function ReplayType(stem: string): (r: nat)
    ensures r == 4 <==> MatchInLine(stem, HOT_LAP)
    ensures r == 1 <==> !MatchInLine(stem, HOT_LAP) && MatchInLine(stem, QUALY)
    ensures r == 2 <==> !MatchInLine(stem, HOT_LAP) && !MatchInLine(stem, QUALY) && MatchInLine(stem, PRACTICE)
    ensures r == 3 <==> !MatchInLine(stem, HOT_LAP) && !MatchInLine(stem, QUALY) && !MatchInLine(stem, PRACTICE)
                        && MatchInLine(stem, RACE)
    ensures r == 5 <==> !MatchInLine(stem, HOT_LAP) && !MatchInLine(stem, QUALY) && !MatchInLine(stem, PRACTICE)
                        && !MatchInLine(stem, RACE) && MatchInLine(stem, WARMUP)
    ensures r == 0 <==> !MatchInLine(stem, HOT_LAP) && !MatchInLine(stem, QUALY) && !MatchInLine(stem, PRACTICE)
                        && !MatchInLine(stem, RACE) && !MatchInLine(stem, WARMUP)
  {
    ScanLineMatches(stem, HOT_LAP);
    ScanLineMatches(stem, QUALY);
    ScanLineMatches(stem, PRACTICE);
    ScanLineMatches(stem, RACE);
    ScanLineMatches(stem, WARMUP);
    if ScanLine(stem, HOT_LAP, 0) then 4
    else if ScanLine(stem, QUALY, 0) then 1
    else if ScanLine(stem, PRACTICE, 0) then 2
    else if ScanLine(stem, RACE, 0) then 3
    else if ScanLine(stem, WARMUP, 0) then 5
    else 0
  }

  /** A pattern whose first character is absent from the name does not match it. */
  lemma Absent(s: string, pat: seq<CharClass>, c: char)
    requires |pat| >= 1 && pat[0] == Lit(c) && c !in s
    ensures !MatchInLine(s, pat)
  {
    NoMatchWithout(s, pat, c, 0, |s|);
  }

  lemma FujiRace()
    ensures ReplayType("Fuji Speedway R1 1") == 3
  {
    var s := "Fuji Speedway R1 1";
    Absent(s, HOT_LAP, 'H');
    Absent(s, QUALY, 'Q');
    Absent(s, PRACTICE, 'P');
    assert MatchAt(s, 14, RACE) && '\n' !in s[..14];
  }

  lemma FujiQualifying()
    ensures ReplayType("Fuji Speedway Q1 1") == 1
  {
    var s := "Fuji Speedway Q1 1";
    Absent(s, HOT_LAP, 'H');
    assert MatchAt(s, 14, QUALY) && '\n' !in s[..14];
  }

  lemma MonzaPractice()
    ensures ReplayType("Autodromo Nazionale Monza P1 1") == 2
  {
    MonzaNotHotLapOrQualy();
    MonzaMatchesPractice();
  }

  lemma MonzaNotHotLapOrQualy()
    ensures !MatchInLine("Autodromo Nazionale Monza P1 1", HOT_LAP)
    ensures !MatchInLine("Autodromo Nazionale Monza P1 1", QUALY)
  {
    var s := "Autodromo Nazionale Monza P1 1";
    Absent(s, HOT_LAP, 'H');
    Absent(s, QUALY, 'Q');
  }

  lemma MonzaMatchesPractice()
    ensures MatchInLine("Autodromo Nazionale Monza P1 1", PRACTICE)
  {
    var s := "Autodromo Nazionale Monza P1 1";
    assert MatchAt(s, 26, PRACTICE) && '\n' !in s[..26];
  }

  // ---------------------------------------------------------------------------------------
  // Listing and sorting

  /** A replay file in the folder: its name without the suffix, its size and its modification time. */
  datatype ReplayFile = ReplayFile(stem: string, size: nat, mtime: int)

  /** One replay as listed: its position in the listing, name, size, time and type. */
  datatype Replay = Replay(id: nat, name: string, size: nat, ctime: int, replayType: nat)

  function Entry(idx: nat, f: ReplayFile): Replay {
    Replay(idx, f.stem, f.size, f.mtime, ReplayType(f.stem))
  }

  /** Insert `x` in front of the first replay that is not newer (the sort is stable). */
  function Insert(x: Replay, t: seq<Replay>): (r: seq<Replay>)
    ensures multiset(r) == multiset(t) + multiset{x}
    decreases |t|
  {
    if t == [] || x.ctime >= t[0].ctime then [x] + t
    else
      assert t == [t[0]] + t[1..];
      [t[0]] + Insert(x, t[1..])
  }

  /** Python `sorted(replays, key=ctime, reverse=True)`. */
  function SortByCtime(s: seq<Replay>): (r: seq<Replay>)
    ensures multiset(r) == multiset(s)
    decreases |s|
  {
    if s == [] then []
    else
      assert s == [s[0]] + s[1..];
      Insert(s[0], SortByCtime(s[1..]))
  }

  /** Newer first; among equally old replays, the one listed first. */
  predicate Before(a: Replay, b: Replay) {
    a.ctime > b.ctime || (a.ctime == b.ctime && a.id < b.id)
  }

  predicate Ordered(s: seq<Replay>) {
    forall i, j :: 0 <= i < j < |s| ==> Before(s[i], s[j])
  }

  predicate IdsIncreasing(s: seq<Replay>) {
    forall i, j :: 0 <= i < j < |s| ==> s[i].id < s[j].id
  }

  lemma {:induction false} InsertOrdered(x: Replay, t: seq<Replay>)
    requires Ordered(t) && forall y :: y in t ==> x.id < y.id
    ensures Ordered(Insert(x, t))
    decreases |t|
  {
    if t != [] && x.ctime < t[0].ctime {
      InsertOrdered(x, t[1..]);
      var r := Insert(x, t);
      forall j | 0 < j < |r|
        ensures Before(r[0], r[j])
      {
        assert r[j] in multiset(Insert(x, t[1..]));
        assert r[j] == x || r[j] in t[1..];
      }
    }
  }

  /** Sorting gives a permutation ordered newest first, a tie kept in listing order. */
  lemma {:induction false} SortOrdered(s: seq<Replay>)
    requires IdsIncreasing(s)
    ensures Ordered(SortByCtime(s))
    decreases |s|
  {
    if s != [] {
      SortOrdered(s[1..]);
      var t := SortByCtime(s[1..]);
      forall y | y in t
        ensures s[0].id < y.id
      {
        assert y in multiset(s[1..]);
        var k :| 0 <= k < |s[1..]| && s[1..][k] == y;
        assert y == s[k + 1];
      }
      InsertOrdered(s[0], t);
    }
  }

  /** The listing before sorting: `id` is the position in the folder listing. */
  function Listed(files: seq<ReplayFile>): (r: seq<Replay>)
    ensures |r| == |files| && forall i :: 0 <= i < |files| ==> r[i] == Entry(i, files[i])
  {
    seq(|files|, i requires 0 <= i < |files| => Entry(i, files[i]))
  }

  /**
   * `get_replays`: every replay file of the folder, each with its listing position as its id and
   * its name as its stem, newest first, equally old ones in listing order.
   */
  method GetReplays(files: seq<ReplayFile>) returns (replays: seq<Replay>)
    ensures replays == SortByCtime(Listed(files))
  {
    var listed: seq<Replay> := [];
    var idx := 0;
    while idx < |files|
      invariant idx <= |files| && |listed| == idx
      invariant forall i :: 0 <= i < idx ==> listed[i] == Entry(i, files[i])
    {
      var f := files[idx];
      var replayType := 0;
      if ScanLine(f.stem, HOT_LAP, 0) {
        replayType := 4;
      } else if ScanLine(f.stem, QUALY, 0) {
        replayType := 1;
      } else if ScanLine(f.stem, PRACTICE, 0) {
        replayType := 2;
      } else if ScanLine(f.stem, RACE, 0) {
        replayType := 3;
      } else if ScanLine(f.stem, WARMUP, 0) {
        replayType := 5;
      }
      listed := listed + [Replay(idx, f.stem, f.size, f.mtime, replayType)];
      idx := idx + 1;
    }
    assert listed == Listed(files);
    replays := SortByCtime(listed);
  }

  /** The replays of a listing come out each exactly once, newest first, a tie in listing order. */
  lemma GetReplaysOrder(files: seq<ReplayFile>)
    ensures var r := SortByCtime(Listed(files));
            multiset(r) == multiset(Listed(files))
            && (forall i, j :: 0 <= i < j < |r| ==> r[i].ctime >= r[j].ctime)
            && (forall i, j :: 0 <= i < j < |r| && r[i].ctime == r[j].ctime ==> r[i].id < r[j].id)
  {
    SortOrdered(Listed(files));
  }

  // ---------------------------------------------------------------------------------------
  // Deleting

  /** The message of the `TypeError` raised by `None / name`. */
  const NONE_PATH_ERROR := "unsupported operand type(s) for /: 'NoneType' and 'str'"

  function ReplayPath(p: string, name: string): string {
    p + "/" + name + REPLAY_FILE_SUFFIX
  }

  /** `r.get('name', '')` */
  function ReplayName(r: map<string, string>): string {
    if "name" in r then r["name"] else ""
  }

  function DeleteError(message: string): string {
    "Error deleting replay: " + message
  }

  /**
   * The files left and the messages collected after deleting `replays` in order from folder `p`
   * (None when no folder is known); `failing` maps a file whose removal raises to its message.
   */
  function DeleteFold(files: set<string>, failing: map<string, string>, p: Option<string>,
                      replays: seq<map<string, string>>): (set<string>, seq<string>)
    decreases |replays|
  {
    if replays == [] then (files, [])
    else
      var (left, errors) := DeleteFold(files, failing, p, replays[..|replays| - 1]);
      var name := ReplayName(replays[|replays| - 1]);
      if p.None? then (left, errors + [DeleteError(NONE_PATH_ERROR)])
      else
        var path := ReplayPath(p.value, name);
        if path !in left then (left, errors)
        else if path in failing then (left, errors + [DeleteError(failing[path])])
        else (left - {path}, errors)
  }

  /** Named in the list: the file of one of the replays. */
  predicate Named(p: string, path: string, replays: seq<map<string, string>>) {
    exists k :: 0 <= k < |replays| && ReplayPath(p, ReplayName(replays[k])) == path
  }

  /**
   * A file is gone after deleting exactly when it was there, the folder is known, one of the
   * replays names it and its removal does not fail; a file missing from the folder is skipped.
   */
  lemma {:induction false} DeleteFoldFiles(files: set<string>, failing: map<string, string>, p: Option<string>,
                                           replays: seq<map<string, string>>, path: string)
    ensures path in DeleteFold(files, failing, p, replays).0
            <==> path in files && (p.None? || !Named(p.value, path, replays) || path in failing)
    decreases |replays|
  {
    if replays != [] {
      var init := replays[..|replays| - 1];
      DeleteFoldFiles(files, failing, p, init, path);
      if p.Some? {
        var last := ReplayPath(p.value, ReplayName(replays[|replays| - 1]));
        assert forall k :: 0 <= k < |init| ==> init[k] == replays[k];
        if Named(p.value, path, replays) && !Named(p.value, path, init) {
          var k :| 0 <= k < |replays| && ReplayPath(p.value, ReplayName(replays[k])) == path;
          assert last == path;
        }
      }
    }
  }

  /** The replay's file is not one whose removal fails, or it is not there. */
  predicate Deletable(files: set<string>, failing: map<string, string>, p: string, r: map<string, string>) {
    var path := ReplayPath(p, ReplayName(r));
    path in files ==> path !in failing
  }

  /**
   * No message is collected exactly when, for every replay, the folder is known and the replay's
   * file is not both there and failing; without a folder every replay gives one message; never more than one each.
   */
  lemma {:induction false} DeleteFoldErrors(files: set<string>, failing: map<string, string>, p: Option<string>,
                                            replays: seq<map<string, string>>)
    ensures var errors := DeleteFold(files, failing, p, replays).1;
            |errors| <= |replays|
            && (p.None? ==> errors == Repeat(DeleteError(NONE_PATH_ERROR), |replays|))
            && (errors == [] <==> forall k :: 0 <= k < |replays| ==> p.Some? && Deletable(files, failing, p.value, replays[k]))
    decreases |replays|
  {
    if replays != [] {
      var init := replays[..|replays| - 1];
      DeleteFoldErrors(files, failing, p, init);
      assert forall k :: 0 <= k < |init| ==> init[k] == replays[k];
      if p.Some? {
        var path := ReplayPath(p.value, ReplayName(replays[|replays| - 1]));
        DeleteFoldFiles(files, failing, p, init, path);
        var left := DeleteFold(files, failing, p, init).0;
        assert (path in left && path in failing) <==> (path in files && path in failing);
        var errors := DeleteFold(files, failing, p, replays).1;
        assert errors == DeleteFold(files, failing, p, init).1
                         + (if path in left && path in failing then [DeleteError(failing[path])] else []);
        assert Deletable(files, failing, p.value, replays[|replays| - 1]) <==> !(path in files && path in failing);
        assert (forall k :: 0 <= k < |replays| ==> Deletable(files, failing, p.value, replays[k]))
               <==> (forall k :: 0 <= k < |init| ==> Deletable(files, failing, p.value, init[k]))
                    && Deletable(files, failing, p.value, replays[|replays| - 1]);
        assert errors == [] <==> DeleteFold(files, failing, p, init).1 == [] && !(path in left && path in failing);
      } else {
        var e := DeleteError(NONE_PATH_ERROR);
        assert Repeat(e, |init|) + [e] == Repeat(e, |replays|);
        assert DeleteFold(files, failing, p, replays).1 != [];
      }
    }
  }

  /** The replay files on disk. */
  class ReplayFolder {
    var files: set<string>

    constructor (files: set<string>)
      ensures this.files == files
    {
      this.files := files;
    }

    /**
     * `delete_replays`: the folder is the one given, else the configured one; each replay's file
     * is removed if it exists; the result is True with no messages, or False with one message
     * per replay that could not be deleted.
     */
    method DeleteReplays(replays: seq<map<string, string>>, location: Option<string>, configured: Option<string>,
                         failing: map<string, string>) returns (ok: bool, errors: seq<string>)
      modifies this
      ensures var p := if location.Some? then location else configured;
              var (left, collected) := DeleteFold(old(files), failing, p, replays);
              files == left && (ok <==> collected == []) && errors == collected
    {
      var p := if location.Some? then location else configured;
      ghost var start := files;
      var collected: seq<string> := [];
      var i := 0;
      while i < |replays|
        invariant i <= |replays|
        invariant (files, collected) == DeleteFold(start, failing, p, replays[..i])
      {
        assert replays[..i + 1][..i] == replays[..i];
        var name := ReplayName(replays[i]);
        if p.None? {
          collected := collected + [DeleteError(NONE_PATH_ERROR)];
        } else {
          var replayFile := ReplayPath(p.value, name);
          if replayFile in files {
            if replayFile in failing {
              collected := collected + [DeleteError(failing[replayFile])];
            } else {
              files := files - {replayFile};
            }
          }
        }
        i := i + 1;
      }
      assert replays[..i] == replays;
      if collected != [] {
        return false, collected;
      }
      return true, [];
    }
  }
}
