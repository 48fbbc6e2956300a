/**
 * A race result: lap times rendered as `m:ss.mmm`, each driver's fastest lap, the finish deltas
 * to the class leader, the purple (fastest overall) lap and sectors marked on the drivers who
 * set them, and the incident entries of the race stream with the drivers they name.
 *
 * Times are whole milliseconds; the XML document is given as its records.
 */
module Rf2Results {
  import opened Common
  import opened Patterns
  import VrToolkitIni

  // ---------------------------------------------------------------------------------------
  // Lap time strings (`to_lap_time_string`)

  const EMPTY_LAP_STRING := "-:--.---"

  /** `to_lap_time_string`: the empty string for 0, else minutes (hours dropped), seconds and milliseconds. */
  function LapTimeString(t: nat): string {
    if t == 0 then EMPTY_LAP_STRING
    else
      var ms := t % 1000;
      var secs := t / 1000;
      var m := (secs / 60) % 60;
      NatToString(m) + ":" + VrToolkitIni.FixedDigits(secs % 60, 2) + "." + VrToolkitIni.FixedDigits(ms, 3)
  }

  /** Reading `m:ss.mmm` back into milliseconds. */
  function ParseLapTime(r: string): Option<nat> {
    if |r| >= 8 && r[|r| - 7] == ':' && r[|r| - 4] == '.'
       && IsNumeric(r[..|r| - 7]) && IsNumeric(r[|r| - 6..|r| - 4]) && IsNumeric(r[|r| - 3..])
    then Some(ClockValue(r[..|r| - 7], r[|r| - 6..|r| - 4], r[|r| - 3..]))
    else None
  }

  /** Minutes, seconds and milliseconds, as digits, in milliseconds. */
  function ClockValue(m: string, s: string, ms: string): nat
    requires IsNumeric(m) && IsNumeric(s) && IsNumeric(ms)
  {
    DigitsValue(m) * 60000 + DigitsValue(s) * 1000 + DigitsValue(ms)
  }

  lemma ClockSplit(t: nat)
    ensures t % 3600000 == ((t / 1000) / 60) % 60 * 60000 + (t / 1000) % 60 * 1000 + t % 1000
  {
    var ms, secs := t % 1000, t / 1000;
    var s, mins := secs % 60, secs / 60;
    var m, h := mins % 60, mins / 60;
    assert t == h * 3600000 + (m * 60000 + s * 1000 + ms);
    assert 0 <= m * 60000 + s * 1000 + ms < 3600000;
  }

  lemma ParseParts(a: string, b: string, c: string)
    requires IsNumeric(a) && IsNumeric(b) && IsNumeric(c) && |b| == 2 && |c| == 3
    ensures ParseLapTime(a + ":" + b + "." + c) == Some(ClockValue(a, b, c))
  {
    var y := a + ":" + b;
    var x := y + ".";
    var r := x + c;
    assert |r| == |a| + 7;
    assert r[|r| - 3..] == c;
    assert r[..|r| - 3] == x;
    assert r[|r| - 4] == '.';
    assert x[..|x| - 1] == y;
    assert y[|y| - 2..] == b && y[..|y| - 2] == a + ":";
    assert r[|r| - 6..|r| - 4] == y[|y| - 2..];
    assert r[..|r| - 7] == a;
    assert r[|r| - 7] == ':';
    assert IsNumeric(r[..|r| - 7]) && IsNumeric(r[|r| - 6..|r| - 4]) && IsNumeric(r[|r| - 3..]);
  }

  /** The value of three digit strings, from the values of the strings. */
  lemma ClockValueOf(a: string, b: string, c: string, m: nat, sec: nat, ms: nat)
    requires IsNumeric(a) && IsNumeric(b) && IsNumeric(c)
    requires DigitsValue(a) == m && DigitsValue(b) == sec && DigitsValue(c) == ms
    ensures ClockValue(a, b, c) == m * 60000 + sec * 1000 + ms
  {
  }

  /** The three parts of a lap time string and what they are worth together. */
  lemma LapTimeParts(t: nat) returns (a: string, b: string, c: string)
    requires t > 0
    ensures LapTimeString(t) == a + ":" + b + "." + c
    ensures IsNumeric(a) && IsNumeric(b) && IsNumeric(c) && |b| == 2 && |c| == 3
    ensures ClockValue(a, b, c) == t % 3600000
  {
    var m, sec, ms := ((t / 1000) / 60) % 60, (t / 1000) % 60, t % 1000;
    a, b, c := NatToString(m), VrToolkitIni.FixedDigits(sec, 2), VrToolkitIni.FixedDigits(ms, 3);
    LapTimeStringPieces(t, m, sec, ms);
    NatToStringRoundTrip(m);
    assert DigitsValue(b) == sec by {
      assert VrToolkitIni.Pow10(2) == 100;
      VrToolkitIni.FixedDigitsValue(sec, 2);
    }
    assert DigitsValue(c) == ms by {
      assert VrToolkitIni.Pow10(3) == 1000;
      VrToolkitIni.FixedDigitsValue(ms, 3);
    }
    ClockValueOf(a, b, c, m, sec, ms);
    ClockSplit(t);
  }

  /** A lap time string reads back as the time, hours dropped; the empty string reads as nothing. */
  lemma LapTimeRoundTrip(t: nat)
    ensures t > 0 ==> ParseLapTime(LapTimeString(t)) == Some(t % 3600000)
    ensures ParseLapTime(EMPTY_LAP_STRING) == None
  {
    if t > 0 {
      var a, b, c := LapTimeParts(t);
      ParseParts(a, b, c);
    }
  }

  // ---------------------------------------------------------------------------------------
  // Comparing lap time strings

  lemma FixedDigitsInjective(a: nat, b: nat, w: nat)
    requires a < VrToolkitIni.Pow10(w) && b < VrToolkitIni.Pow10(w)
    ensures VrToolkitIni.FixedDigits(a, w) == VrToolkitIni.FixedDigits(b, w) <==> a == b
  {
    VrToolkitIni.FixedDigitsValue(a, w);
    VrToolkitIni.FixedDigitsValue(b, w);
  }

  /** Fixed-width digit strings compare as their numbers do. */
  lemma {:induction false} FixedDigitsOrder(a: nat, b: nat, w: nat)
    requires a < VrToolkitIni.Pow10(w) && b < VrToolkitIni.Pow10(w)
    ensures LexLess(VrToolkitIni.FixedDigits(a, w), VrToolkitIni.FixedDigits(b, w)) <==> a < b
    decreases w
  {
    if w > 0 {
      var ha, hb := VrToolkitIni.FixedDigits(a / 10, w - 1), VrToolkitIni.FixedDigits(b / 10, w - 1);
      FixedDigitsOrder(a / 10, b / 10, w - 1);
      FixedDigitsInjective(a / 10, b / 10, w - 1);
      LexLessAppend(ha, hb, [DigitChar(a % 10)], [DigitChar(b % 10)]);
      DigitCharCode(a % 10);
      DigitCharCode(b % 10);
      assert a == a / 10 * 10 + a % 10 && b == b / 10 * 10 + b % 10;
    }
  }

  /** A time under ten minutes in minutes, seconds and milliseconds. */
  lemma ClockParts(t: nat)
    requires t < 600000
    ensures t == t / 60000 * 60000 + (t / 1000) % 60 * 1000 + t % 1000
    ensures t / 60000 < 10 && ((t / 1000) / 60) % 60 == t / 60000
  {
    var secs := t / 1000;
    assert t == secs * 1000 + t % 1000;
    assert secs == secs / 60 * 60 + secs % 60;
    assert secs / 60 == t / 60000;
  }

  /** Numbers written with bounded lower places compare place by place. */
  lemma PlaceOrder(ma: nat, sa: nat, ca: nat, mb: nat, sb: nat, cb: nat)
    requires sa < 60 && sb < 60 && ca < 1000 && cb < 1000
    ensures ma * 60000 + sa * 1000 + ca < mb * 60000 + sb * 1000 + cb
            <==> ma < mb || (ma == mb && (sa < sb || (sa == sb && ca < cb)))
  {
    if ma < mb {
      assert ma * 60000 + 60000 <= mb * 60000;
    } else if mb < ma {
      assert mb * 60000 + 60000 <= ma * 60000;
    }
  }

  /** The leading part `m:ss` of a time under ten minutes. */
  function Head(t: nat): string
    requires t < 600000
  {
    [DigitChar(t / 60000)] + ":" + VrToolkitIni.FixedDigits((t / 1000) % 60, 2)
  }

  lemma HeadShape(t: nat)
    requires 0 < t < 600000
    ensures LapTimeString(t) == Head(t) + "." + VrToolkitIni.FixedDigits(t % 1000, 3)
    ensures |Head(t)| == 4
  {
    ClockParts(t);
  }

  /** The text `m:ss` of a minute digit and a two-digit second count. */
  function HeadOf(m: nat, sec: nat): string
    requires m < 10
  {
    [DigitChar(m)] + ":" + VrToolkitIni.FixedDigits(sec, 2)
  }

  lemma HeadOfLess(ma: nat, sa: nat, mb: nat, sb: nat)
    requires ma < 10 && mb < 10 && sa < 60 && sb < 60
    ensures LexLess(HeadOf(ma, sa), HeadOf(mb, sb)) <==> ma < mb || (ma == mb && sa < sb)
  {
    var ta, tb := VrToolkitIni.FixedDigits(sa, 2), VrToolkitIni.FixedDigits(sb, 2);
    assert VrToolkitIni.Pow10(2) == 100;
    DigitCharCode(ma);
    DigitCharCode(mb);
    LexLessAppend([DigitChar(ma)], [DigitChar(mb)], ":", ":");
    LexLessAppend([DigitChar(ma)] + ":", [DigitChar(mb)] + ":", ta, tb);
    FixedDigitsOrder(sa, sb, 2);
  }

  lemma HeadOfEqual(ma: nat, sa: nat, mb: nat, sb: nat)
    requires ma < 10 && mb < 10 && sa < 60 && sb < 60
    ensures HeadOf(ma, sa) == HeadOf(mb, sb) <==> ma == mb && sa == sb
  {
    assert VrToolkitIni.Pow10(2) == 100;
    DigitCharCode(ma);
    DigitCharCode(mb);
    FixedDigitsInjective(sa, sb, 2);
    if HeadOf(ma, sa) == HeadOf(mb, sb) {
      assert HeadOf(ma, sa)[0] == HeadOf(mb, sb)[0];
      assert HeadOf(ma, sa)[2..] == VrToolkitIni.FixedDigits(sa, 2);
      assert HeadOf(mb, sb)[2..] == VrToolkitIni.FixedDigits(sb, 2);
    }
  }

  /** Heads compare as minutes, then seconds. */
  lemma HeadOrder(a: nat, b: nat)
    requires 0 < a < 600000 && 0 < b < 600000
    ensures LexLess(Head(a), Head(b)) <==> a / 60000 < b / 60000 || (a / 60000 == b / 60000 && (a / 1000) % 60 < (b / 1000) % 60)
    ensures Head(a) == Head(b) <==> a / 60000 == b / 60000 && (a / 1000) % 60 == (b / 1000) % 60
  {
    ClockParts(a);
    ClockParts(b);
    var ma, sa, mb, sb := a / 60000, (a / 1000) % 60, b / 60000, (b / 1000) % 60;
    assert Head(a) == HeadOf(ma, sa) && Head(b) == HeadOf(mb, sb);
    HeadOfLess(ma, sa, mb, sb);
    HeadOfEqual(ma, sa, mb, sb);
  }

  /** Under ten minutes, lap time strings compare lexicographically as the times do. */
  lemma LapTimeOrder(a: nat, b: nat)
    requires 0 < a < 600000 && 0 < b < 600000
    ensures LexLess(LapTimeString(a), LapTimeString(b)) <==> a < b
  {
    HeadShape(a);
    HeadShape(b);
    HeadOrder(a, b);
    var ca, cb := VrToolkitIni.FixedDigits(a % 1000, 3), VrToolkitIni.FixedDigits(b % 1000, 3);
    LexLessAppend(Head(a) + ".", Head(b) + ".", ca, cb);
    LexLessAppend(Head(a), Head(b), ".", ".");
    LexLessAsymmetric(".", ".");
    assert VrToolkitIni.Pow10(3) == 1000;
    FixedDigitsOrder(a % 1000, b % 1000, 3);
    if Head(a) + "." == Head(b) + "." {
      assert Head(a) == (Head(a) + ".")[..4] == (Head(b) + ".")[..4] == Head(b);
    }
    ClockParts(a);
    ClockParts(b);
    PlaceOrder(a / 60000, (a / 1000) % 60, a % 1000, b / 60000, (b / 1000) % 60, b % 1000);
  }

  /** The pieces of a lap time string. */
  lemma LapTimeStringPieces(t: nat, m: nat, sec: nat, ms: nat)
    requires t > 0 && m == ((t / 1000) / 60) % 60 && sec == (t / 1000) % 60 && ms == t % 1000
    ensures LapTimeString(t) == NatToString(m) + ":" + VrToolkitIni.FixedDigits(sec, 2) + "." + VrToolkitIni.FixedDigits(ms, 3)
  {
  }

  lemma ThreeZeros()
    ensures VrToolkitIni.FixedDigits(0, 3) == "000"
  {
    assert VrToolkitIni.FixedDigits(0, 1) == "0";
    assert VrToolkitIni.FixedDigits(0, 2) == "00";
  }

  lemma TenMinutesFive()
    ensures LapTimeString(605000) == "10:05.000"
  {
    LapTimeStringPieces(605000, 10, 5, 0);
    assert NatToString(10) == "10" by {
      assert NatToString(1) == "1";
    }
    assert VrToolkitIni.FixedDigits(5, 2) == "05" by {
      assert VrToolkitIni.FixedDigits(0, 1) == "0";
    }
    ThreeZeros();
  }

  /** Two fixed digits are the tens digit and the units digit. */
  lemma TwoDigits(n: nat)
    requires n < 100
    ensures VrToolkitIni.FixedDigits(n, 2) == [DigitChar(n / 10), DigitChar(n % 10)]
  {
    assert VrToolkitIni.FixedDigits(n / 10, 1) == [DigitChar(n / 10)];
  }

  lemma NinetyPieces()
    ensures LapTimeString(90000) == NatToString(1) + ":" + VrToolkitIni.FixedDigits(30, 2) + "." + VrToolkitIni.FixedDigits(0, 3)
  {
    LapTimeStringPieces(90000, 1, 30, 0);
  }

  lemma Thirty()
    ensures VrToolkitIni.FixedDigits(30, 2) == "30"
  {
    TwoDigits(30);
  }

  lemma NinetyText(m: string, s: string, ms: string)
    requires m == "1" && s == "30" && ms == "000"
    ensures m + ":" + s + "." + ms == "1:30.000"
  {
  }

  lemma NinetySeconds()
    ensures LapTimeString(90000) == "1:30.000"
  {
    NinetyPieces();
    Thirty();
    ThreeZeros();
    assert NatToString(1) == "1";
    NinetyText(NatToString(1), VrToolkitIni.FixedDigits(30, 2), VrToolkitIni.FixedDigits(0, 3));
  }

  // ---------------------------------------------------------------------------------------
  // Minima (`sorted(xs)[0]`)

  /** The position of a smallest number (the first one). */
  function MinIndex(xs: seq<nat>): (i: nat)
    requires |xs| > 0
    ensures i < |xs| && forall j :: 0 <= j < |xs| ==> xs[i] <= xs[j]
    decreases |xs|
  {
    if |xs| == 1 then 0
    else
      var k := MinIndex(xs[1..]) + 1;
      assert forall j :: 1 <= j < |xs| ==> xs[j] == xs[1..][j - 1];
      if xs[0] <= xs[k] then 0 else k
  }

  /** The smallest number, as `sorted(xs)[0]`. */
  function MinTime(xs: seq<nat>): (r: nat)
    requires |xs| > 0
    ensures r in xs && forall x :: x in xs ==> r <= x
  {
    xs[MinIndex(xs)]
  }

  /** The lexicographically smallest string, as `sorted(strings)[0]`. */
  function MinString(xs: seq<string>): (r: string)
    requires |xs| > 0
    ensures r in xs && forall x :: x in xs ==> !LexLess(x, r)
    decreases |xs|
  {
    if |xs| == 1 then
      LexLessAsymmetric(xs[0], xs[0]);
      xs[0]
    else
      var m := MinString(xs[1..]);
      assert forall x :: x in xs ==> x == xs[0] || x in xs[1..];
      if LexLess(xs[0], m) then
        forall x | x in xs[1..] && LexLess(x, xs[0])
          ensures LexLess(x, m)
        {
          LexLessTransitive(x, xs[0], m);
        }
        LexLessAsymmetric(xs[0], xs[0]);
        xs[0]
      else m
  }

  // ---------------------------------------------------------------------------------------
  // Purple sectors

  /** What a sector string is worth in milliseconds; 0 for a string that is not a lap time. */
  function SectorValue(s: string): nat {
    var v := ParseLapTime(s);
    if v.Some? then v.value else 0
  }

  /** A sector string of a time under an hour is worth that time. */
  lemma SectorValueOf(t: nat)
    requires 0 < t < 3600000
    ensures SectorValue(LapTimeString(t)) == t
  {
    LapTimeRoundTrip(t);
  }

  function Values(ss: seq<string>): (r: seq<nat>)
    ensures |r| == |ss| && forall i :: 0 <= i < |ss| ==> r[i] == SectorValue(ss[i])
  {
    seq(|ss|, i requires 0 <= i < |ss| => SectorValue(ss[i]))
  }

  /** The purple sector as the source picks it: the lexicographically smallest sector string. */
  function PurpleSectorAsWritten(ss: seq<string>): string
    requires |ss| > 0
  {
    MinString(ss)
  }

  /** The purple sector as intended: the sector string worth the least time. */
  function PurpleSector(ss: seq<string>): (r: string)
    requires |ss| > 0
    ensures r in ss && forall s :: s in ss ==> SectorValue(r) <= SectorValue(s)
  {
    var vs := Values(ss);
    var k := MinIndex(vs);
    assert forall s :: s in ss ==> exists j :: 0 <= j < |ss| && ss[j] == s;
    ss[k]
  }

  /** The sector strings of some times. */
  function Strings(times: seq<nat>): (r: seq<string>)
    ensures |r| == |times| && forall i :: 0 <= i < |times| ==> r[i] == LapTimeString(times[i])
  {
    seq(|times|, i requires 0 <= i < |times| => LapTimeString(times[i]))
  }

  /** For sectors under ten minutes the string comparison picks the fastest sector. */
  lemma PurpleSectorsAgree(times: seq<nat>)
    requires |times| > 0 && forall i :: 0 <= i < |times| ==> 0 < times[i] < 600000
    ensures PurpleSectorAsWritten(Strings(times)) == PurpleSector(Strings(times))
  {
    var ss := Strings(times);
    var r := PurpleSectorAsWritten(ss);
    var x :| 0 <= x < |ss| && ss[x] == r;
    var p := PurpleSector(ss);
    var k :| 0 <= k < |ss| && ss[k] == p;
    var tx, tk := times[x], times[k];
    assert r == LapTimeString(tx) && p == LapTimeString(tk);
    assert !LexLess(p, r);
    SectorValueOf(tx);
    SectorValueOf(tk);
    assert tk <= tx;
    LapTimeOrder(tk, tx);
    assert tx == tk;
  }

  lemma LongSectorAsWritten()
    ensures PurpleSectorAsWritten(["1:30.000", "10:05.000"]) == "10:05.000"
  {
    assert LexLess("10:05.000", "1:30.000");
    LexLessAsymmetric("10:05.000", "1:30.000");
  }

  lemma LongSectorIntended()
    ensures PurpleSector(["1:30.000", "10:05.000"]) == "1:30.000"
  {
    TenMinutesFive();
    NinetySeconds();
    SectorValueOf(90000);
    SectorValueOf(605000);
    assert Values(["1:30.000", "10:05.000"]) == [90000, 605000];
  }

  /** A sector of ten minutes or more beats a 1:30 sector in the string comparison. */
  lemma PurpleSectorLongSector()
    ensures Strings([90000, 605000]) == ["1:30.000", "10:05.000"]
    ensures PurpleSectorAsWritten(["1:30.000", "10:05.000"]) == "10:05.000"
    ensures PurpleSector(["1:30.000", "10:05.000"]) == "1:30.000"
  {
    TenMinutesFive();
    NinetySeconds();
    LongSectorAsWritten();
    LongSectorIntended();
  }

  // ---------------------------------------------------------------------------------------
  // Laps and drivers

  /** A lap element: its time (0 when its text is not a number) and its sector times, in milliseconds. */
  datatype LapElement = LapElement(laptime: nat, s1: nat, s2: nat, s3: nat)

  /** `ResultsLapEntry`: the lap time and the three sector strings. */
  datatype Lap = Lap(laptime: nat, s1: string, s2: string, s3: string)

  datatype Sector = S1 | S2 | S3

  function SectorOf(l: Lap, k: Sector): string {
    match k
    case S1 => l.s1
    case S2 => l.s2
    case S3 => l.s3
  }

  /** A time of 0 is the empty lap string; any other is a string that reads back as the time (hours dropped). */
  lemma LapTimeStringEmpty(t: nat)
    ensures LapTimeString(t) == EMPTY_LAP_STRING <==> t == 0
    ensures t > 0 ==> ParseLapTime(LapTimeString(t)) == Some(t % 3600000)
  {
    LapTimeRoundTrip(t);
  }

  function LapEntry(e: LapElement): (r: Lap)
    ensures r.laptime == e.laptime
    ensures (r.s1 == EMPTY_LAP_STRING <==> e.s1 == 0) && (r.s2 == EMPTY_LAP_STRING <==> e.s2 == 0)
    ensures r.s3 == EMPTY_LAP_STRING <==> e.s3 == 0
    ensures e.s1 > 0 ==> ParseLapTime(r.s1) == Some(e.s1 % 3600000)
  {
    LapTimeStringEmpty(e.s1);
    LapTimeStringEmpty(e.s2);
    LapTimeStringEmpty(e.s3);
    Lap(e.laptime, LapTimeString(e.s1), LapTimeString(e.s2), LapTimeString(e.s3))
  }

  /** The positive lap times, in order. */
  function LapTimes(laps: seq<Lap>): seq<nat>
    decreases |laps|
  {
    if laps == [] then []
    else
      var t := laps[|laps| - 1].laptime;
      LapTimes(laps[..|laps| - 1]) + (if t > 0 then [t] else [])
  }

  lemma {:induction false} LapTimesSpec(laps: seq<Lap>)
    ensures forall x :: x in LapTimes(laps) <==> x > 0 && exists i :: 0 <= i < |laps| && laps[i].laptime == x
    decreases |laps|
  {
    if laps != [] {
      var init := laps[..|laps| - 1];
      LapTimesSpec(init);
      assert forall i :: 0 <= i < |init| ==> init[i] == laps[i];
    }
  }

  /** The sector strings of one sector that are not the empty lap string, in order. */
  function Sectors(laps: seq<Lap>, k: Sector): seq<string>
    decreases |laps|
  {
    if laps == [] then []
    else
      var s := SectorOf(laps[|laps| - 1], k);
      Sectors(laps[..|laps| - 1], k) + (if s != EMPTY_LAP_STRING then [s] else [])
  }

  lemma {:induction false} SectorsSpec(laps: seq<Lap>, k: Sector)
    ensures forall x :: x in Sectors(laps, k) <==> x != EMPTY_LAP_STRING && exists i :: 0 <= i < |laps| && SectorOf(laps[i], k) == x
    decreases |laps|
  {
    if laps != [] {
      var init := laps[..|laps| - 1];
      SectorsSpec(init, k);
      assert forall i :: 0 <= i < |init| ==> init[i] == laps[i];
    }
  }

  /** `fastest_lap`: the smallest positive lap time, 0 without one. */
  function FastestLap(laps: seq<Lap>): (r: nat)
    ensures r == 0 <==> forall i :: 0 <= i < |laps| ==> laps[i].laptime == 0
    ensures r > 0 ==> (exists i :: 0 <= i < |laps| && laps[i].laptime == r)
                      && forall i :: 0 <= i < |laps| && laps[i].laptime > 0 ==> r <= laps[i].laptime
  {
    LapTimesSpec(laps);
    var ts := LapTimes(laps);
    if ts == [] then
      assert forall i :: 0 <= i < |laps| ==> laps[i].laptime !in ts;
      0
    else
      assert forall i :: 0 <= i < |laps| && laps[i].laptime > 0 ==> laps[i].laptime in ts;
      MinTime(ts)
  }

  /** A driver element with the values read from it. */
  datatype DriverElement = DriverElement(
    name: string, classPosition: int, carClass: string, laps: seq<LapElement>, raceLaps: int, finishTime: nat)

  /** One driver of the result, with the fields the global data fills in. */
  datatype Driver = Driver(
    name: string, classPosition: int, carClass: string, laps: seq<Lap>, raceLaps: int, finishTime: nat,
    fastestLap: nat, fastestLapFormatted: string, finishTimeFormatted: string,
    finishDelta: nat, finishDeltaFormatted: string, finishDeltaLaps: nat, finishDeltaLapsFormatted: string,
    purpleLapFormatted: string, purpleS1: string, purpleS2: string, purpleS3: string)

  /** `ResultsDriverEntry` of one driver element: its laps in order, nothing global set yet. */
  function DriverEntry(e: DriverElement): Driver
  {
    var laps := seq(|e.laps|, i requires 0 <= i < |e.laps| => LapEntry(e.laps[i]));
    Driver(e.name, e.classPosition, e.carClass, laps, e.raceLaps, e.finishTime, FastestLap(laps),
           LapTimeString(FastestLap(laps)), LapTimeString(e.finishTime), 0, "", 0, "", "", "", "", "")
  }

  // ---------------------------------------------------------------------------------------
  // Global data (`_create_global_data`)

  /** The finish time and laps of each class's leader: the last driver with class position 1. */
  function LeadTimes(ds: seq<Driver>): map<string, (nat, int)>
    decreases |ds|
  {
    if ds == [] then map[]
    else
      var d := ds[|ds| - 1];
      var lead := LeadTimes(ds[..|ds| - 1]);
      if d.classPosition == 1 then lead[d.carClass := (d.finishTime, d.raceLaps)] else lead
  }

  /** The driver at `i` is the last of class `c` with class position 1. */
  predicate LastLeader(ds: seq<Driver>, i: nat, c: string) {
    i < |ds| && ds[i].classPosition == 1 && ds[i].carClass == c
    && forall j :: i < j < |ds| ==> !(ds[j].classPosition == 1 && ds[j].carClass == c)
  }

  /** A class has a leader entry iff some driver of it has class position 1, and it is the last such driver's. */
  lemma {:induction false} LeadTimesLast(ds: seq<Driver>, c: string)
    ensures c in LeadTimes(ds) <==> exists i :: 0 <= i < |ds| && ds[i].classPosition == 1 && ds[i].carClass == c
    ensures forall i: nat :: LastLeader(ds, i, c) ==> LeadTimes(ds)[c] == (ds[i].finishTime, ds[i].raceLaps)
    decreases |ds|
  {
    if ds != [] {
      var init := ds[..|ds| - 1];
      LeadTimesLast(init, c);
      assert forall i :: 0 <= i < |init| ==> init[i] == ds[i];
      forall i: nat | LastLeader(ds, i, c) && i < |init|
        ensures LastLeader(init, i, c)
      {
      }
    }
  }

  /** All positive lap times over every driver's laps. */
  function AllLapTimes(ds: seq<Driver>): seq<nat>
    decreases |ds|
  {
    if ds == [] then [] else AllLapTimes(ds[..|ds| - 1]) + LapTimes(ds[|ds| - 1].laps)
  }

  lemma {:induction false} AllLapTimesSpec(ds: seq<Driver>)
    ensures forall x :: x in AllLapTimes(ds) <==>
                        x > 0 && exists i, k :: 0 <= i < |ds| && 0 <= k < |ds[i].laps| && ds[i].laps[k].laptime == x
    decreases |ds|
  {
    if ds != [] {
      var init := ds[..|ds| - 1];
      AllLapTimesSpec(init);
      LapTimesSpec(ds[|ds| - 1].laps);
      assert forall i :: 0 <= i < |init| ==> init[i] == ds[i];
    }
  }

  /** All sector strings of one sector over every driver's laps, the empty lap string left out. */
  function AllSectors(ds: seq<Driver>, k: Sector): seq<string>
    decreases |ds|
  {
    if ds == [] then [] else AllSectors(ds[..|ds| - 1], k) + Sectors(ds[|ds| - 1].laps, k)
  }

  lemma {:induction false} AllSectorsSpec(ds: seq<Driver>, k: Sector)
    ensures forall x :: x in AllSectors(ds, k) <==>
                        x != EMPTY_LAP_STRING && exists i, j :: 0 <= i < |ds| && 0 <= j < |ds[i].laps| && SectorOf(ds[i].laps[j], k) == x
    decreases |ds|
  {
    if ds != [] {
      var init := ds[..|ds| - 1];
      AllSectorsSpec(init, k);
      SectorsSpec(ds[|ds| - 1].laps, k);
      assert forall i :: 0 <= i < |init| ==> init[i] == ds[i];
    }
  }

  /** The purple values: a lap time and three sector strings, or none (the source's -1). */
  datatype Purple = Purple(lap: Option<nat>, s1: Option<string>, s2: Option<string>, s3: Option<string>)

  /** Purple values exist only when there are lap times and strings for all three sectors. */
  function PurpleOf(ds: seq<Driver>): (r: Purple)
    ensures r.lap.Some? <==> AllLapTimes(ds) != [] && AllSectors(ds, S1) != [] && AllSectors(ds, S2) != [] && AllSectors(ds, S3) != []
    ensures r.lap.None? ==> r == Purple(None, None, None, None)
    ensures r.lap.Some? ==> r.lap.value in AllLapTimes(ds) && forall x :: x in AllLapTimes(ds) ==> r.lap.value <= x
    ensures r.lap.Some? ==> r.s1 == Some(PurpleSectorAsWritten(AllSectors(ds, S1)))
                            && r.s2 == Some(PurpleSectorAsWritten(AllSectors(ds, S2)))
                            && r.s3 == Some(PurpleSectorAsWritten(AllSectors(ds, S3)))
  {
    var laps, s1, s2, s3 := AllLapTimes(ds), AllSectors(ds, S1), AllSectors(ds, S2), AllSectors(ds, S3);
    if laps != [] && s1 != [] && s2 != [] && s3 != [] then
      Purple(Some(MinTime(laps)), Some(PurpleSectorAsWritten(s1)), Some(PurpleSectorAsWritten(s2)),
             Some(PurpleSectorAsWritten(s3)))
    else Purple(None, None, None, None)
  }

  /** The purple lap time is a lap of some driver, and no driver's lap is faster. */
  lemma PurpleLapIsFastest(ds: seq<Driver>)
    requires PurpleOf(ds).lap.Some?
    ensures var t := PurpleOf(ds).lap.value;
            && (exists i, k :: 0 <= i < |ds| && 0 <= k < |ds[i].laps| && ds[i].laps[k].laptime == t)
            && forall i, k :: 0 <= i < |ds| && 0 <= k < |ds[i].laps| && ds[i].laps[k].laptime > 0 ==> t <= ds[i].laps[k].laptime
  {
    AllLapTimesSpec(ds);
    var t := PurpleOf(ds).lap.value;
    forall i, k | 0 <= i < |ds| && 0 <= k < |ds[i].laps| && ds[i].laps[k].laptime > 0
      ensures t <= ds[i].laps[k].laptime
    {
      assert ds[i].laps[k].laptime in AllLapTimes(ds);
    }
  }

  /**
   * Each purple sector is a sector string some driver set, and no driver's sector string sorts
   * before it. Where every sector is under ten minutes this is also the fastest sector
   * (`PurpleSectorsAgree`); `PurpleSectorLongSector` shows it is not in general.
   */
  lemma PurpleSectorIsSmallest(ds: seq<Driver>, k: Sector)
    requires AllSectors(ds, k) != []
    ensures var s := PurpleSectorAsWritten(AllSectors(ds, k));
            && (exists i, j :: 0 <= i < |ds| && 0 <= j < |ds[i].laps| && SectorOf(ds[i].laps[j], k) == s)
            && forall i, j :: 0 <= i < |ds| && 0 <= j < |ds[i].laps| && SectorOf(ds[i].laps[j], k) != EMPTY_LAP_STRING
                              ==> !LexLess(SectorOf(ds[i].laps[j], k), s)
  {
    AllSectorsSpec(ds, k);
  }

  /**
   * The corrected pick: each intended purple sector is a sector some driver set, worth no more
   * than any other driver's sector.
   */
  lemma PurpleSectorIsFastest(ds: seq<Driver>, k: Sector)
    requires AllSectors(ds, k) != []
    ensures var s := PurpleSector(AllSectors(ds, k));
            && (exists i, j :: 0 <= i < |ds| && 0 <= j < |ds[i].laps| && SectorOf(ds[i].laps[j], k) == s)
            && forall i, j :: 0 <= i < |ds| && 0 <= j < |ds[i].laps| && SectorOf(ds[i].laps[j], k) != EMPTY_LAP_STRING
                              ==> SectorValue(s) <= SectorValue(SectorOf(ds[i].laps[j], k))
  {
    AllSectorsSpec(ds, k);
  }

  /** One lap checked against the purple values. */
  function MarkLap(d: Driver, l: Lap, p: Purple): Driver {
    d.(purpleLapFormatted := if p.lap == Some(l.laptime) then LapTimeString(l.laptime) else d.purpleLapFormatted,
       purpleS1 := if p.s1 == Some(l.s1) then p.s1.value else d.purpleS1,
       purpleS2 := if p.s2 == Some(l.s2) then p.s2.value else d.purpleS2,
       purpleS3 := if p.s3 == Some(l.s3) then p.s3.value else d.purpleS3)
  }

  /** The driver's laps checked in order against the purple values. */
  function MarkLaps(d: Driver, laps: seq<Lap>, p: Purple): Driver
    decreases |laps|
  {
    if laps == [] then d else MarkLap(MarkLaps(d, laps[..|laps| - 1], p), laps[|laps| - 1], p)
  }

  /** Some lap has the purple lap time. */
  predicate HasPurpleLap(laps: seq<Lap>, p: Purple) {
    p.lap.Some? && exists i :: 0 <= i < |laps| && laps[i].laptime == p.lap.value
  }

  /** Some lap's string of sector `k` is the purple one `s`. */
  predicate HasSector(laps: seq<Lap>, k: Sector, s: Option<string>) {
    s.Some? && exists i :: 0 <= i < |laps| && SectorOf(laps[i], k) == s.value
  }

  /**
   * A driver's purple lap is set iff one of its laps has the purple lap time, and each purple
   * sector iff one of its laps has that sector string; nothing else of the driver changes.
   */
  lemma {:induction false} MarkLapsSpec(d: Driver, laps: seq<Lap>, p: Purple)
    ensures var r := MarkLaps(d, laps, p);
            && r.purpleLapFormatted == (if HasPurpleLap(laps, p) then LapTimeString(p.lap.value) else d.purpleLapFormatted)
            && r.purpleS1 == (if HasSector(laps, S1, p.s1) then p.s1.value else d.purpleS1)
            && r.purpleS2 == (if HasSector(laps, S2, p.s2) then p.s2.value else d.purpleS2)
            && r.purpleS3 == (if HasSector(laps, S3, p.s3) then p.s3.value else d.purpleS3)
            && r == d.(purpleLapFormatted := r.purpleLapFormatted, purpleS1 := r.purpleS1, purpleS2 := r.purpleS2,
                       purpleS3 := r.purpleS3)
    decreases |laps|
  {
    if laps != [] {
      var init := laps[..|laps| - 1];
      var l := laps[|laps| - 1];
      MarkLapsSpec(d, init, p);
      HasPurpleLapLast(laps, p);
      HasSectorLast(laps, S1, p.s1);
      HasSectorLast(laps, S2, p.s2);
      HasSectorLast(laps, S3, p.s3);
    }
  }

  /** A purple lap among some laps is one among all but the last, or the last. */
  lemma HasPurpleLapLast(laps: seq<Lap>, p: Purple)
    requires laps != []
    ensures HasPurpleLap(laps, p) <==> HasPurpleLap(laps[..|laps| - 1], p) || p.lap == Some(laps[|laps| - 1].laptime)
  {
    var init := laps[..|laps| - 1];
    assert forall i :: 0 <= i < |init| ==> init[i] == laps[i];
  }

  /** A purple sector among some laps is one among all but the last, or the last one's. */
  lemma HasSectorLast(laps: seq<Lap>, k: Sector, s: Option<string>)
    requires laps != []
    ensures HasSector(laps, k, s) <==> HasSector(laps[..|laps| - 1], k, s) || s == Some(SectorOf(laps[|laps| - 1], k))
  {
    var init := laps[..|laps| - 1];
    assert forall i :: 0 <= i < |init| ==> init[i] == laps[i];
  }

  /** One driver after the global data (the body of the second loop of `_create_global_data`). */
  function UpdateDriver(d: Driver, lead: map<string, (nat, int)>, p: Purple): Driver {
    if d.carClass !in lead || lead[d.carClass].0 == 0 then d
    else
      var (leadTime, leadLaps) := lead[d.carClass];
      var delta := if d.finishTime >= leadTime then d.finishTime - leadTime else 0;
      var deltaLaps := if leadLaps > d.raceLaps then leadLaps - d.raceLaps else 0;
      var formatted := if deltaLaps != 0 then "+" + NatToString(deltaLaps) + "L" else d.finishDeltaLapsFormatted;
      MarkLaps(d.(finishDelta := delta, finishDeltaFormatted := LapTimeString(delta), finishDeltaLaps := deltaLaps,
                  finishDeltaLapsFormatted := formatted), d.laps, p)
  }

  /** Every driver after the global data. */
  function GlobalData(ds: seq<Driver>): (r: seq<Driver>)
    ensures |r| == |ds|
  {
    seq(|ds|, i requires 0 <= i < |ds| => UpdateDriver(ds[i], LeadTimes(ds), PurpleOf(ds)))
  }

  /**
   * A driver whose class leader (the last driver of the class with class position 1) has a
   * finish time: its delta is the time behind the leader (0 when not behind), its laps behind
   * the leader's laps less its own (0 when not fewer), formatted `+NL` only when there are some,
   * and its laps are marked against the purple values; its own fields are kept.
   */
  lemma GlobalDataBehindLeader(ds: seq<Driver>, i: nat, leader: nat)
    requires i < |ds| && LastLeader(ds, leader, ds[i].carClass) && ds[leader].finishTime > 0
    ensures var r := GlobalData(ds)[i];
            var d := ds[i];
            var l := ds[leader];
            var p := PurpleOf(ds);
            && r.finishDelta == (if d.finishTime >= l.finishTime then d.finishTime - l.finishTime else 0)
            && r.finishDeltaFormatted == LapTimeString(r.finishDelta)
            && r.finishDeltaLaps == (if l.raceLaps > d.raceLaps then l.raceLaps - d.raceLaps else 0)
            && r.finishDeltaLapsFormatted == (if r.finishDeltaLaps != 0 then "+" + NatToString(r.finishDeltaLaps) + "L"
                                              else d.finishDeltaLapsFormatted)
            && r.purpleLapFormatted == (if HasPurpleLap(d.laps, p) then LapTimeString(p.lap.value) else d.purpleLapFormatted)
            && r.purpleS1 == (if HasSector(d.laps, S1, p.s1) then p.s1.value else d.purpleS1)
            && r.purpleS2 == (if HasSector(d.laps, S2, p.s2) then p.s2.value else d.purpleS2)
            && r.purpleS3 == (if HasSector(d.laps, S3, p.s3) then p.s3.value else d.purpleS3)
            && r.name == d.name && r.laps == d.laps && r.finishTime == d.finishTime && r.fastestLap == d.fastestLap
  {
    var d, l, p := ds[i], ds[leader], PurpleOf(ds);
    assert LeadTimes(ds)[d.carClass] == (l.finishTime, l.raceLaps) by {
      LeadTimesLast(ds, d.carClass);
    }
    var delta := if d.finishTime >= l.finishTime then d.finishTime - l.finishTime else 0;
    var deltaLaps := if l.raceLaps > d.raceLaps then l.raceLaps - d.raceLaps else 0;
    var formatted := if deltaLaps != 0 then "+" + NatToString(deltaLaps) + "L" else d.finishDeltaLapsFormatted;
    var e := d.(finishDelta := delta, finishDeltaFormatted := LapTimeString(delta), finishDeltaLaps := deltaLaps,
                finishDeltaLapsFormatted := formatted);
    assert GlobalData(ds)[i] == MarkLaps(e, d.laps, p);
    MarkLapsSpec(e, d.laps, p);
  }

  /** The class leader itself, when it has a finish time, is no time and no laps behind. */
  lemma LeaderHasNoDelta(ds: seq<Driver>, i: nat)
    requires i < |ds| && LastLeader(ds, i, ds[i].carClass) && ds[i].finishTime > 0
    ensures var r := GlobalData(ds)[i];
            r.finishDelta == 0 && r.finishDeltaFormatted == EMPTY_LAP_STRING && r.finishDeltaLaps == 0
            && r.finishDeltaLapsFormatted == ds[i].finishDeltaLapsFormatted
  {
    GlobalDataBehindLeader(ds, i, i);
  }

  /** A driver whose class has no driver in class position 1 is left as it is, purple marks included. */
  lemma NoLeaderUntouched(ds: seq<Driver>, i: nat)
    requires i < |ds|
    requires forall j :: 0 <= j < |ds| ==> !(ds[j].classPosition == 1 && ds[j].carClass == ds[i].carClass)
    ensures GlobalData(ds)[i] == ds[i]
  {
    LeadTimesLast(ds, ds[i].carClass);
  }

  // ---------------------------------------------------------------------------------------
  // Incidents (`ResultStreamEntry.read_details`)

  /** `\(\d{k}\)` matches at index `i`. */
  predicate MarkerOfLength(s: string, i: nat, k: nat) {
    i + k + 2 <= |s| && s[i] == '(' && s[i + k + 1] == ')' && forall j :: i + 1 <= j <= i + k ==> IsDigit(s[j])
  }

  /** `\(\d{1,3}\)` matches at index `i`. */
  predicate MarkerAt(s: string, i: nat) {
    exists k :: 1 <= k <= 3 && MarkerOfLength(s, i, k)
  }

  /** The leftmost marker at or after index `i`. */
  function FindMarker(s: string, i: nat): (r: Option<nat>)
    ensures r.Some? ==> i <= r.value && MarkerAt(s, r.value) && forall k :: i <= k < r.value ==> !MarkerAt(s, k)
    ensures r.None? ==> forall k :: i <= k ==> !MarkerAt(s, k)
    decreases |s| - i
  {
    if i >= |s| then None
    else if MarkerAt(s, i) then Some(i)
    else FindMarker(s, i + 1)
  }

  /** `with\sanother\svehicle\s` */
  const VEHICLE: seq<CharClass> :=
    [Lit('w'), Lit('i'), Lit('t'), Lit('h'), Space, Lit('a'), Lit('n'), Lit('o'), Lit('t'), Lit('h'), Lit('e'), Lit('r'),
     Space, Lit('v'), Lit('e'), Lit('h'), Lit('i'), Lit('c'), Lit('l'), Lit('e'), Space]

  /**
   * The drivers an incident names: the text before the first marker, then, after the first
   * "with another vehicle", the text up to the next marker.
   */
  function IncidentDrivers(text: string): (r: seq<string>)
    ensures |r| <= 2
    ensures FindMarker(text, 0).Some? ==> |r| >= 1 && r[0] == text[..FindMarker(text, 0).value]
    ensures FindMarker(text, 0).None? && Search(text, VEHICLE, 0).None? ==> r == []
  {
    var first := FindMarker(text, 0);
    var vehicle := Search(text, VEHICLE, 0);
    (if first.Some? then [text[..first.value]] else [])
    + (if vehicle.Some? then
         var rest := text[vehicle.value + |VEHICLE|..];
         var second := FindMarker(rest, 0);
         if second.Some? then [rest[..second.value]] else []
       else [])
  }

  /** `(n)`. */
  function Marker(n: nat): string {
    "(" + NatToString(n) + ")"
  }

  lemma {:induction false} NatToStringLength(n: nat)
    ensures n < 10 ==> |NatToString(n)| == 1
    ensures n < 100 ==> |NatToString(n)| <= 2
    ensures n < 1000 ==> |NatToString(n)| <= 3
  {
    if n >= 10 {
      NatToStringLength(n / 10);
    }
  }

  /** A number of at most three digits in parentheses is the first marker after text without `(`. */
  lemma MarkerFound(a: string, n: nat, rest: string)
    requires n < 1000 && '(' !in a
    ensures FindMarker(a + Marker(n) + rest, 0) == Some(|a|)
  {
    var s := a + Marker(n) + rest;
    var d := NatToString(n);
    NatToStringLength(n);
    assert s[|a|] == '(' && s[|a| + |d| + 1] == ')';
    assert forall j :: |a| + 1 <= j <= |a| + |d| ==> s[j] == d[j - |a| - 1];
    assert MarkerOfLength(s, |a|, |d|);
    assert MarkerAt(s, |a|);
    forall k | 0 <= k < |a|
      ensures !MarkerAt(s, k)
    {
      assert s[k] == a[k];
    }
    var r := FindMarker(s, 0);
    assert r.Some? && r.value <= |a|;
  }

  /** The vehicle phrase spelled out matches the pattern. */
  lemma VehicleMatches(s: string, at: nat)
    requires at + 21 <= |s| && s[at..at + 21] == "with another vehicle "
    ensures MatchAt(s, at, VEHICLE)
  {
    forall k | 0 <= k < 21
      ensures ClassMatches(VEHICLE[k], s[at + k])
    {
      assert s[at + k] == s[at..at + 21][k];
    }
  }

  /** "with another vehicle " after text without `w` is the first match of the vehicle phrase. */
  lemma VehicleFound(head: string, rest: string)
    requires 'w' !in head
    ensures Search(head + "with another vehicle " + rest, VEHICLE, 0) == Some(|head|)
  {
    var text := head + "with another vehicle " + rest;
    assert text[..|head|] == head;
    NoMatchWithout(text, VEHICLE, 'w', 0, |head|);
    assert text[|head|..|head| + 21] == "with another vehicle ";
    VehicleMatches(text, |head|);
    SearchFinds(text, VEHICLE, 0, |head|);
  }

  /** The two names, from where the markers and the phrase are found. */
  lemma IncidentDriversAt(text: string, i: nat, j: nat, k: nat)
    requires FindMarker(text, 0) == Some(i) && Search(text, VEHICLE, 0) == Some(j)
    requires FindMarker(text[j + |VEHICLE|..], 0) == Some(k)
    ensures IncidentDrivers(text) == [text[..i], text[j + |VEHICLE|..][..k]]
  {
  }

  /** The first marker of an incident text of the usual shape is the first driver's number. */
  lemma IncidentFirstMarker(a: string, n: nat, mid: string, after: string)
    requires n < 1000 && '(' !in a
    ensures FindMarker(a + Marker(n) + mid + "with another vehicle " + after, 0) == Some(|a|)
  {
    var rest := mid + "with another vehicle " + after;
    assert a + Marker(n) + mid + "with another vehicle " + after == a + Marker(n) + rest;
    MarkerFound(a, n, rest);
  }

  /** The vehicle phrase of an incident text of the usual shape is found after the first driver. */
  lemma IncidentVehicle(a: string, n: nat, mid: string, after: string)
    requires 'w' !in a && 'w' !in mid
    ensures Search(a + Marker(n) + mid + "with another vehicle " + after, VEHICLE, 0) == Some(|a + Marker(n) + mid|)
  {
    assert 'w' !in Marker(n);
    VehicleFound(a + Marker(n) + mid, after);
  }

  /**
   * An incident text of the usual shape names its two drivers: the text before the first
   * driver's number, and the text after "with another vehicle " before the second's.
   */
  lemma IncidentRoundTrip(a: string, n: nat, mid: string, b: string, m: nat, tail: string)
    requires n < 1000 && m < 1000
    requires '(' !in a && 'w' !in a && 'w' !in mid && '(' !in b
    ensures IncidentDrivers(a + Marker(n) + mid + "with another vehicle " + b + Marker(m) + tail) == [a, b]
  {
    var head := a + Marker(n) + mid;
    var after := b + Marker(m) + tail;
    var text := head + "with another vehicle " + after;
    assert text == a + Marker(n) + mid + "with another vehicle " + b + Marker(m) + tail;
    IncidentFirstMarker(a, n, mid, after);
    IncidentVehicle(a, n, mid, after);
    assert text[|head| + |VEHICLE|..] == after;
    MarkerFound(b, m, tail);
    IncidentDriversAt(text, |a|, |head|, |b|);
    assert text[..|a|] == a;
    assert after[..|b|] == b;
  }

  // ---------------------------------------------------------------------------------------
  // The result (`RfactorResults`)

  /** One element of the race stream: its tag, time and text. */
  datatype StreamElement = StreamElement(tag: string, et: string, text: string)

  /** `ResultStreamEntry` of an element. */
  datatype StreamEntry = StreamEntry(et: string, entryType: string, text: string, drivers: seq<string>)

  function ReadEntry(e: StreamElement): (r: StreamEntry)
    ensures r.entryType == e.tag && r.text == e.text && r.et == e.et
    ensures r.drivers == if e.tag == "Incident" then IncidentDrivers(e.text) else []
  {
    StreamEntry(e.et, e.tag, e.text, if e.tag == "Incident" then IncidentDrivers(e.text) else [])
  }

  /** The entries kept from the stream: the incidents, in order. */
  function Incidents(stream: seq<StreamElement>): seq<StreamEntry>
    decreases |stream|
  {
    if stream == [] then []
    else
      var e := stream[|stream| - 1];
      Incidents(stream[..|stream| - 1]) + (if e.tag == "Incident" then [ReadEntry(e)] else [])
  }

  /** Only incidents are kept, each with the drivers its text names, and every incident is kept. */
  lemma {:induction false} IncidentsSpec(stream: seq<StreamElement>)
    ensures forall x :: x in Incidents(stream) ==> x.entryType == "Incident" && x.drivers == IncidentDrivers(x.text)
    ensures forall e :: e in stream && e.tag == "Incident" ==> ReadEntry(e) in Incidents(stream)
    ensures |Incidents(stream)| <= |stream|
    decreases |stream|
  {
    if stream != [] {
      var init := stream[..|stream| - 1];
      IncidentsSpec(init);
      assert forall x :: x in stream ==> x in init || x == stream[|stream| - 1];
    }
  }

  /** What a result file holds: the race laps and time, the driver elements and the stream elements. */
  datatype ResultFile = ResultFile(raceLaps: int, raceTime: int, drivers: seq<DriverElement>, stream: seq<StreamElement>)

  class RfactorResults {
    var entries: seq<StreamEntry>
    var drivers: seq<Driver>
    var raceLaps: int
    var raceTime: int

    /** `RfactorResults(file)`: a missing file gives an empty result; otherwise the file's drivers and incidents. */
    constructor (file: Option<ResultFile>)
      ensures file.None? ==> entries == [] && drivers == [] && raceLaps == 0 && raceTime == 0
      ensures file.Some? ==> raceLaps == file.value.raceLaps && raceTime == file.value.raceTime
                             && drivers == GlobalData(Entries(file.value.drivers))
                             && entries == Incidents(file.value.stream)
    {
      entries, drivers, raceLaps, raceTime := [], [], 0, 0;
      new;
      if file.Some? {
        EmptyAppend(Entries(file.value.drivers));
        EmptyAppend(Incidents(file.value.stream));
        ReadResultFile(file.value);
      }
    }

    /** `_read_result_file` on a file that exists. */
    method ReadResultFile(file: ResultFile)
      modifies this
      ensures raceLaps == file.raceLaps && raceTime == file.raceTime
      ensures drivers == GlobalData(old(drivers) + Entries(file.drivers))
      ensures entries == old(entries) + Incidents(file.stream)
    {
      raceLaps := file.raceLaps;
      raceTime := file.raceTime;
      ReadDrivers(file.drivers);
      CreateGlobalData();
      ReadStream(file.stream);
    }

    /** The driver part of `_read_result_file`: one entry per driver element, appended in order. */
    method ReadDrivers(elements: seq<DriverElement>)
      modifies this`drivers
      ensures drivers == old(drivers) + Entries(elements)
    {
      var i := 0;
      while i < |elements|
        invariant i <= |elements|
        invariant drivers == old(drivers) + Entries(elements[..i])
      {
        assert elements[..i + 1][..i] == elements[..i];
        AppendAssoc(old(drivers), Entries(elements[..i]), [DriverEntry(elements[i])]);
        drivers := drivers + [DriverEntry(elements[i])];
        i := i + 1;
      }
      assert elements[..i] == elements;
    }

    /** `_create_global_data`: every driver updated against its class leader and the purple values. */
    method CreateGlobalData()
      modifies this`drivers
      ensures drivers == GlobalData(old(drivers))
    {
      var lead: map<string, (nat, int)> := map[];
      var allLaps: seq<nat> := [];
      var allS1, allS2, allS3: seq<string> := [], [], [];
      var i := 0;
      while i < |drivers|
        invariant i <= |drivers|
        invariant lead == LeadTimes(drivers[..i]) && allLaps == AllLapTimes(drivers[..i])
        invariant allS1 == AllSectors(drivers[..i], S1) && allS2 == AllSectors(drivers[..i], S2)
        invariant allS3 == AllSectors(drivers[..i], S3)
      {
        var d := drivers[i];
        assert drivers[..i + 1][..i] == drivers[..i];
        if d.classPosition == 1 {
          lead := lead[d.carClass := (d.finishTime, d.raceLaps)];
        }
        allLaps := allLaps + LapTimes(d.laps);
        allS1 := allS1 + Sectors(d.laps, S1);
        allS2 := allS2 + Sectors(d.laps, S2);
        allS3 := allS3 + Sectors(d.laps, S3);
        i := i + 1;
      }
      assert drivers[..i] == drivers;
      var purple := Purple(None, None, None, None);
      if allLaps != [] && allS1 != [] && allS2 != [] && allS3 != [] {
        purple := Purple(Some(MinTime(allLaps)), Some(PurpleSectorAsWritten(allS1)), Some(PurpleSectorAsWritten(allS2)),
                         Some(PurpleSectorAsWritten(allS3)));
      }
      UpdateDrivers(lead, purple);
    }

    /** The second loop of `_create_global_data`: each driver updated in place, in order. */
    method UpdateDrivers(lead: map<string, (nat, int)>, purple: Purple)
      modifies this`drivers
      ensures |drivers| == |old(drivers)|
      ensures forall j :: 0 <= j < |drivers| ==> drivers[j] == UpdateDriver(old(drivers)[j], lead, purple)
    {
      var i := 0;
      while i < |drivers|
        invariant i <= |drivers| == |old(drivers)|
        invariant forall j :: 0 <= j < |drivers| ==>
                    drivers[j] == if j < i then UpdateDriver(old(drivers)[j], lead, purple) else old(drivers)[j]
      {
        var d := UpdateOne(drivers[i], lead, purple);
        drivers := drivers[i := d];
        i := i + 1;
      }
    }

    /** The stream part of `_read_result_file`: only incidents are kept, appended in order. */
    method ReadStream(stream: seq<StreamElement>)
      modifies this`entries
      ensures entries == old(entries) + Incidents(stream)
    {
      var i := 0;
      while i < |stream|
        invariant i <= |stream|
        invariant entries == old(entries) + Incidents(stream[..i])
      {
        assert stream[..i + 1][..i] == stream[..i];
        var element := stream[i];
        if element.tag == "Incident" {
          entries := entries + [ReadEntry(element)];
        }
        i := i + 1;
      }
      assert stream[..i] == stream;
    }
  }

  /** The driver entries of some driver elements, in order. */
  function Entries(es: seq<DriverElement>): (r: seq<Driver>)
    decreases |es|
  {
    if es == [] then [] else Entries(es[..|es| - 1]) + [DriverEntry(es[|es| - 1])]
  }

  /** One pass of the second loop of `_create_global_data`, as the loop writes it. */
  method UpdateOne(d0: Driver, lead: map<string, (nat, int)>, purple: Purple) returns (d: Driver)
    ensures d == UpdateDriver(d0, lead, purple)
  {
    d := d0;
    if d.carClass !in lead || lead[d.carClass].0 == 0 {
      return;
    }
    var (leadTime, leadLaps) := lead[d.carClass];
    d := d.(finishDelta := if d.finishTime >= leadTime then d.finishTime - leadTime else 0);
    d := d.(finishDeltaFormatted := LapTimeString(d.finishDelta));
    d := d.(finishDeltaLaps := if leadLaps > d.raceLaps then leadLaps - d.raceLaps else 0);
    if d.finishDeltaLaps != 0 {
      d := d.(finishDeltaLapsFormatted := "+" + NatToString(d.finishDeltaLaps) + "L");
    }
    d := MarkPurple(d, purple);
  }

  /** The purple marks of the inner loop: each lap checked in order against the purple values. */
  method MarkPurple(d0: Driver, purple: Purple) returns (d: Driver)
    ensures d == MarkLaps(d0, d0.laps, purple)
  {
    d := d0;
    var k := 0;
    while k < |d.laps|
      invariant k <= |d.laps| && d.laps == d0.laps
      invariant d == MarkLaps(d0, d.laps[..k], purple)
    {
      var l := d.laps[k];
      assert d.laps[..k + 1][..k] == d.laps[..k];
      if purple.lap == Some(l.laptime) {
        d := d.(purpleLapFormatted := LapTimeString(l.laptime));
      }
      if purple.s1 == Some(l.s1) {
        d := d.(purpleS1 := purple.s1.value);
      }
      if purple.s2 == Some(l.s2) {
        d := d.(purpleS2 := purple.s2.value);
      }
      if purple.s3 == Some(l.s3) {
        d := d.(purpleS3 := purple.s3.value);
      }
      k := k + 1;
    }
    assert d.laps[..k] == d.laps;
  }
}
