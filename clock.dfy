/**
 * Clock times as the periodic check handles them: `datetime.strptime(s,
 * "%H:%M")` (bot.py:482, bot.py:488), `strftime('%H%M')` and the
 * notification key `date_sg_HHMM` (bot.py:501).
 *
 * A time of day is a number of minutes since midnight, below 1440.
 * `strptime` turns "%H:%M" into the regular expression
 *   (2[0-3]|[0-1]\d|\d) : ([0-5]\d|\d)
 * matched from the start of the string with backtracking over the
 * alternatives in order, and then fails with "unconverted data remains"
 * unless the match covers the whole string.
 */
module Clock {
  import opened Wrappers
  import opened Text

  const MinutesPerDay: nat := 1440

  function DigitValue(c: char): (v: nat)
    requires IsDigit(c)
    ensures v < 10
  {
    c as int - '0' as int
  }

  function DigitChar(v: nat): (c: char)
    requires v < 10
    ensures IsDigit(c) && DigitValue(c) == v
  {
    ('0' as int + v) as char
  }

  /** Where a successful regular-expression match ends, with the two numbers it captured. */
  datatype ClockMatch = ClockMatch(hour: nat, minute: nat, end: nat)

  /** `([0-5]\d|\d)` from p: the first alternative that matches. */
  function MinuteAt(s: string, p: nat): (r: Option<(nat, nat)>)
    ensures r.Some? ==> r.value.0 < 60 && p < r.value.1 <= |s|
  {
    if p + 2 <= |s| && '0' <= s[p] <= '5' && IsDigit(s[p + 1]) then
      Some((10 * DigitValue(s[p]) + DigitValue(s[p + 1]), p + 2))
    else if p + 1 <= |s| && IsDigit(s[p]) then Some((DigitValue(s[p]), p + 1))
    else None
  }

  /** The hour alternative took s[..p] with value h; the rest must be `:` and a minute. */
  function AfterHour(s: string, h: nat, p: nat): (r: Option<ClockMatch>)
    ensures r.Some? ==> r.value.hour == h && r.value.minute < 60 && p < r.value.end <= |s|
  {
    if p < |s| && s[p] == ':' then
      match MinuteAt(s, p + 1)
      case None => None
      case Some(mm) => Some(ClockMatch(h, mm.0, mm.1))
    else None
  }

  /** `re.match` of the pattern: the alternatives for the hour tried in order. */
  function StrptimeMatch(s: string): (r: Option<ClockMatch>)
    ensures r.Some? ==> r.value.hour < 24 && r.value.minute < 60 && r.value.end <= |s|
  {
    var first :=
      if |s| >= 2 && s[0] == '2' && '0' <= s[1] <= '3' then AfterHour(s, 20 + DigitValue(s[1]), 2)
      else None;
    var second :=
      if |s| >= 2 && (s[0] == '0' || s[0] == '1') && IsDigit(s[1])
      then AfterHour(s, 10 * DigitValue(s[0]) + DigitValue(s[1]), 2)
      else None;
    var third := if |s| >= 1 && IsDigit(s[0]) then AfterHour(s, DigitValue(s[0]), 1) else None;
    if first.Some? then first else if second.Some? then second else third
  }

  /** `datetime.strptime(s, "%H:%M").time()` as minutes since midnight; None where it raises. */
  function ParseClock(s: string): (r: Option<nat>)
    ensures r.Some? ==> r.value < MinutesPerDay
  {
    match StrptimeMatch(s)
    case None => None
    case Some(c) => if c.end == |s| then Some(60 * c.hour + c.minute) else None
  }

  /** One or two digits, a colon, two digits: the shape the extractor captures. */
  predicate Captured(s: string) {
    (|s| == 5 && IsDigit(s[0]) && IsDigit(s[1]) && s[2] == ':' && IsDigit(s[3]) && IsDigit(s[4])) ||
    (|s| == 4 && IsDigit(s[0]) && s[1] == ':' && IsDigit(s[2]) && IsDigit(s[3]))
  }

  /** The hour written in a captured time. */
  function HourText(s: string): nat
    requires Captured(s)
  {
    if |s| == 5 then 10 * DigitValue(s[0]) + DigitValue(s[1]) else DigitValue(s[0])
  }

  /** The minute written in a captured time. */
  function MinuteText(s: string): nat
    requires Captured(s)
  {
    10 * DigitValue(s[|s| - 2]) + DigitValue(s[|s| - 1])
  }

  /**
   * A captured time parses exactly when it is a valid 24-hour time, and then
   * to the time it spells; "24:00", "07:60" and "9:75" are rejected.
   */
  lemma ParseCaptured(s: string)
    requires Captured(s)
    ensures ParseClock(s).Some? <==> HourText(s) <= 23 && MinuteText(s) <= 59
    ensures ParseClock(s).Some? ==> ParseClock(s).value == 60 * HourText(s) + MinuteText(s)
  {
    var p := |s| - 3;
    assert s[p] == ':';
    if MinuteText(s) <= 59 {
      assert MinuteAt(s, p + 1) == Some((MinuteText(s), |s|));
    } else {
      assert MinuteAt(s, p + 1) == Some((DigitValue(s[p + 1]), |s| - 1));
    }
    if |s| == 5 {
      assert AfterHour(s, DigitValue(s[0]), 1) == None;
    }
  }

  /** A leading zero on the hour does not change the time: "7:00" and "07:00" agree. */
  lemma ParsePadding(d: char, m1: char, m2: char)
    requires IsDigit(d) && IsDigit(m1) && IsDigit(m2)
    ensures ParseClock([d, ':', m1, m2]) == ParseClock(['0', d, ':', m1, m2])
  {
    ParseCaptured([d, ':', m1, m2]);
    ParseCaptured(['0', d, ':', m1, m2]);
  }

  lemma ExampleTimes()
    ensures ParseClock("07:00") == Some(420)
    ensures ParseClock("7:05") == Some(425)
    ensures ParseClock("23:59") == Some(1439)
    ensures ParseClock("24:00") == None
    ensures ParseClock("07:60") == None
    ensures ParseClock("") == None
  {
    ParseCaptured("07:00");
    ParseCaptured("7:05");
    ParseCaptured("23:59");
    ParseCaptured("24:00");
    ParseCaptured("07:60");
  }

  /** Two digits, zero-padded, as `%H` and `%M` print them. */
  function Pad2(n: nat): (r: string)
    requires n < 100
    ensures |r| == 2 && IsDigit(r[0]) && IsDigit(r[1])
    ensures 10 * DigitValue(r[0]) + DigitValue(r[1]) == n
  {
    [DigitChar(n / 10), DigitChar(n % 10)]
  }

  /** `strftime('%H%M')` of a time of day. */
  function Hhmm(t: nat): (r: string)
    requires t < MinutesPerDay
    ensures |r| == 4 && AllDigits(r)
  {
    Pad2(t / 60) + Pad2(t % 60)
  }

  /** Reading the four digits back as hours and minutes. */
  function HhmmValue(s: string): nat
    requires |s| == 4 && AllDigits(s)
  {
    60 * (10 * DigitValue(s[0]) + DigitValue(s[1])) + 10 * DigitValue(s[2]) + DigitValue(s[3])
  }

  /** `%H%M` loses nothing: the time can be read back from it. */
  lemma HhmmRoundTrip(t: nat)
    requires t < MinutesPerDay
    ensures HhmmValue(Hhmm(t)) == t
  {
    var h, m := Pad2(t / 60), Pad2(t % 60);
    assert Hhmm(t)[0] == h[0] && Hhmm(t)[1] == h[1] && Hhmm(t)[2] == m[0] && Hhmm(t)[3] == m[1];
  }

  lemma HhmmInjective(t1: nat, t2: nat)
    requires t1 < MinutesPerDay && t2 < MinutesPerDay && Hhmm(t1) == Hhmm(t2)
    ensures t1 == t2
  {
    HhmmRoundTrip(t1);
    HhmmRoundTrip(t2);
  }

  /** The dedup key `f"{date}_{sg}_{HHMM}"` of bot.py:501. */
  function Key(date: string, sg: string, start: nat): (k: string)
    requires start < MinutesPerDay
    ensures |k| == |date| + |sg| + 6
  {
    date + "_" + sg + "_" + Hhmm(start)
  }

  /** On one date a key names one subgroup and one start time. */
  lemma KeyInjective(date: string, sg1: string, t1: nat, sg2: string, t2: nat)
    requires t1 < MinutesPerDay && t2 < MinutesPerDay
    requires Key(date, sg1, t1) == Key(date, sg2, t2)
    ensures sg1 == sg2 && t1 == t2
  {
    var k := Key(date, sg1, t1);
    var n := |date| + 1;
    assert |sg1| == |sg2|;
    assert k[n..n + |sg1|] == sg1;
    assert Key(date, sg2, t2)[n..n + |sg2|] == sg2;
    assert k[|k| - 4..] == Hhmm(t1);
    assert Key(date, sg2, t2)[|k| - 4..] == Hhmm(t2);
    HhmmInjective(t1, t2);
  }

  /** "7:00" and "07:00" on the page give the same key. */
  lemma KeyPadding(date: string, sg: string, d: char, m1: char, m2: char)
    requires IsDigit(d) && IsDigit(m1) && IsDigit(m2)
    requires ParseClock([d, ':', m1, m2]).Some?
    ensures ParseClock(['0', d, ':', m1, m2]).Some?
    ensures Key(date, sg, ParseClock([d, ':', m1, m2]).value) == Key(date, sg, ParseClock(['0', d, ':', m1, m2]).value)
  {
    ParsePadding(d, m1, m2);
  }
}
