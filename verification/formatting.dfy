/** The browser's duration texts: `formatDuration` (minutes as `H:MMh`) and
    the live timer's `HH:MM:SS` display, each with the reading that recovers
    the number it shows. */
module Formatting {
  import opened Wrappers
  import opened Decimal
  import Js

  /** `formatDuration(minutes)`: `Math.floor(minutes / 60)`, a colon,
      `minutes % 60` padded to two characters, and "h". Dafny's `/` by a
      positive divisor is the floor, like `Math.floor`; `%` is JavaScript's. */
  function FormatDuration(minutes: int): (s: string)
    ensures minutes >= 0 ==> ParseDuration(s) == Some(minutes)
  {
    if minutes >= 0 then DurationReadsBack(minutes); DurationText(minutes / 60, Js.Rem(minutes, 60))
    else DurationText(minutes / 60, Js.Rem(minutes, 60))
  }

  /** The hours field, a colon, the minutes field padded to two, and "h". */
  function DurationText(hours: int, mins: int): string {
    IntToString(hours) + ":" + PadStart(IntToString(mins), 2, '0') + "h"
  }

  /** The number of minutes an `H:MMh` text shows, when it is one: digits,
      a colon, two digits below 60, and "h". */
  function ParseDuration(s: string): Option<nat> {
    if |s| >= 5 && s[|s| - 1] == 'h' && s[|s| - 4] == ':'
       && IsDigits(s[..|s| - 4]) && IsDigits(s[|s| - 3..|s| - 1])
       && ParseNat(s[|s| - 3..|s| - 1]) < 60
    then Some(DurationValue(ParseNat(s[..|s| - 4]), ParseNat(s[|s| - 3..|s| - 1])))
    else None
  }

  /** The minutes shown by an hours, minutes pair. */
  function DurationValue(h: nat, m: nat): nat {
    60 * h + m
  }

  lemma DurationReadsBack(minutes: nat)
    ensures ParseDuration(DurationText(minutes / 60, Js.Rem(minutes, 60))) == Some(minutes)
  {
    var h := minutes / 60;
    var m := Js.Rem(minutes, 60);
    Js.RemOfNatural(minutes, 60);
    assert 0 <= m < 60 && DurationValue(h, m) == minutes;
    NaturalDurationText(h, m);
    DurationFieldsRead(h, m, minutes, DurationText(h, m));
  }

  /** For non-negative fields the text is the plain digits, the minutes
      zero-padded. */
  lemma NaturalDurationText(h: nat, m: nat)
    ensures DurationText(h, m) == NatToString(h) + ":" + ZeroPad(m, 2) + "h"
  {
  }

  /** Hours and minutes below 60 read back from their text. */
  lemma DurationFieldsRead(h: nat, m: nat, total: nat, s: string)
    requires m < 60 && total == DurationValue(h, m)
    requires s == NatToString(h) + ":" + ZeroPad(m, 2) + "h"
    ensures ParseDuration(s) == Some(total)
  {
    assert Pow10(2) == 100;
    ZeroPadLength(m, 2);
    ZeroPadValue(m, 2);
    ParseNatToString(h);
    ParseDurationOf(NatToString(h), ZeroPad(m, 2));
  }

  /** Any digits, a colon, two digits below 60 and "h" read as a duration. */
  lemma ParseDurationOf(a: string, b: string)
    requires IsDigits(a) && IsDigits(b) && |a| >= 1 && |b| == 2 && ParseNat(b) < 60
    ensures ParseDuration(a + ":" + b + "h") == Some(DurationValue(ParseNat(a), ParseNat(b)))
  {
    var s := a + ":" + b + "h";
    var n := |s|;
    assert s[..n - 4] == a;
    assert s[n - 3..n - 1] == b;
    assert n >= 5 && s[n - 1] == 'h' && s[n - 4] == ':';
    assert ParseNat(s[..n - 4]) == ParseNat(a);
    assert ParseNat(s[n - 3..n - 1]) == ParseNat(b);
    assert ParseDuration(s) == Some(DurationValue(ParseNat(s[..n - 4]), ParseNat(s[n - 3..n - 1])));
  }

  /** For a negative duration JavaScript's truncating `%` and the flooring
      hours disagree, so the text does not add back up: -90 shows "-2:-30h". */
  lemma NegativeDurationText()
    ensures FormatDuration(-90) == "-2:-30h"
  {
    assert NatToString(2) == "2";
    assert NatToString(30) == "30";
  }

  /** `updateTimerDisplay`: hours, minutes and seconds, each padded to two. */
  function TimerDisplay(seconds: nat): (s: string)
    ensures |s| >= 8
    ensures ParseClock(s) == Some(seconds)
  {
    var h := seconds / 3600;
    var m := (seconds % 3600) / 60;
    var sec := seconds % 60;
    var s := ZeroPad(h, 2) + ":" + ZeroPad(m, 2) + ":" + ZeroPad(sec, 2);
    ClockReadsBack(seconds, s);
    s
  }

  /** The seconds an `HH:MM:SS` text shows, when it is one (the hours field
      may be longer than two digits). */
  function ParseClock(s: string): Option<nat> {
    if |s| >= 8 && s[|s| - 3] == ':' && s[|s| - 6] == ':'
       && IsDigits(s[..|s| - 6]) && IsDigits(s[|s| - 5..|s| - 3]) && IsDigits(s[|s| - 2..])
       && ParseNat(s[|s| - 5..|s| - 3]) < 60 && ParseNat(s[|s| - 2..]) < 60
    then Some(ClockValue(ParseNat(s[..|s| - 6]), ParseNat(s[|s| - 5..|s| - 3]), ParseNat(s[|s| - 2..])))
    else None
  }

  /** The seconds shown by an hours, minutes, seconds triple. */
  function ClockValue(h: nat, m: nat, sec: nat): nat {
    3600 * h + 60 * m + sec
  }

  /** The three displayed fields: minutes and seconds below 60, and
      `h*3600 + m*60 + sec` is the timer's count. */
  lemma ClockFields(seconds: nat)
    ensures (seconds % 3600) / 60 < 60 && seconds % 60 < 60
    ensures 3600 * (seconds / 3600) + 60 * ((seconds % 3600) / 60) + seconds % 60 == seconds
  {
    var r := seconds % 3600;
    assert seconds == 3600 * (seconds / 3600) + r;
    assert r == 60 * (r / 60) + r % 60;
    assert seconds % 60 == r % 60 by {
      assert seconds == 60 * (60 * (seconds / 3600) + r / 60) + r % 60;
    }
  }

  lemma ClockReadsBack(seconds: nat, s: string)
    requires s == ZeroPad(seconds / 3600, 2) + ":" + ZeroPad((seconds % 3600) / 60, 2) + ":" + ZeroPad(seconds % 60, 2)
    ensures |s| >= 8 && ParseClock(s) == Some(seconds)
  {
    ClockFields(seconds);
    assert ClockValue(seconds / 3600, (seconds % 3600) / 60, seconds % 60) == seconds;
    ClockFieldsRead(seconds / 3600, (seconds % 3600) / 60, seconds % 60, seconds, s);
  }

  lemma ClockFieldsRead(h: nat, m: nat, sec: nat, total: nat, s: string)
    requires m < 60 && sec < 60 && total == ClockValue(h, m, sec)
    requires s == ZeroPad(h, 2) + ":" + ZeroPad(m, 2) + ":" + ZeroPad(sec, 2)
    ensures |s| >= 8 && ParseClock(s) == Some(total)
  {
    assert Pow10(2) == 100;
    ZeroPadLength(m, 2);
    ZeroPadLength(sec, 2);
    ZeroPadValue(h, 2);
    ZeroPadValue(m, 2);
    ZeroPadValue(sec, 2);
    ParseClockOf(ZeroPad(h, 2), ZeroPad(m, 2), ZeroPad(sec, 2));
  }

  lemma ParseClockOf(a: string, b: string, c: string)
    requires IsDigits(a) && IsDigits(b) && IsDigits(c) && |a| >= 2 && |b| == 2 && |c| == 2
    requires ParseNat(b) < 60 && ParseNat(c) < 60
    ensures ParseClock(a + ":" + b + ":" + c) == Some(ClockValue(ParseNat(a), ParseNat(b), ParseNat(c)))
  {
    var s := a + ":" + b + ":" + c;
    var n := |s|;
    assert s[..n - 6] == a;
    assert s[n - 5..n - 3] == b;
    assert s[n - 2..] == c;
    assert n >= 8 && s[n - 3] == ':' && s[n - 6] == ':';
    assert ParseNat(s[..n - 6]) == ParseNat(a);
    assert ParseNat(s[n - 5..n - 3]) == ParseNat(b);
    assert ParseNat(s[n - 2..]) == ParseNat(c);
    assert ParseClock(s) == Some(ClockValue(ParseNat(s[..n - 6]), ParseNat(s[n - 5..n - 3]), ParseNat(s[n - 2..])));
  }
}
