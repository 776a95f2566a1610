/**
 * Times and timestamps. A time of day is what `strptime(s, '%H:%M')`
 * accepts, read as minutes since midnight; a `Stamp` is the wall-clock
 * instant `datetime.now()` would return, passed in as a parameter.
 */
module Clock {
  import opened Wrappers
  import opened Text

  /** The hour field of `%H`: one digit, or two digits from 00 to 23. */
  predicate HourField(h: string) {
    (|h| == 1 && AllDigits(h)) || (|h| == 2 && AllDigits(h) && DigitsValue(h) <= 23)
  }

  /** The minute field of `%M`: one digit, or two digits from 00 to 59. */
  predicate MinuteField(m: string) {
    (|m| == 1 && AllDigits(m)) || (|m| == 2 && AllDigits(m) && DigitsValue(m) <= 59)
  }

  /** `strptime(s, '%H:%M')` as minutes since midnight, `None` where it raises. */
  function ParseClock(s: string): (r: Option<nat>)
    ensures r.Some? ==> r.value < 24 * 60
  {
    if |s| >= 2 && s[1] == ':' && HourField(s[..1]) && MinuteField(s[2..]) then
      Some(60 * DigitsValue(s[..1]) + DigitsValue(s[2..]))
    else if |s| >= 3 && s[2] == ':' && HourField(s[..2]) && MinuteField(s[3..]) then
      Some(60 * DigitsValue(s[..2]) + DigitsValue(s[3..]))
    else
      None
  }

  /** The canonical `HH:MM` spelling of a minute of the day. */
  function FormatClock(m: nat): (s: string)
    requires m < 24 * 60
    ensures |s| == 5 && s[2] == ':'
  {
    Pad(m / 60, 2) + ":" + Pad(m % 60, 2)
  }

  /** Every minute of the day survives formatting and parsing back. */
  lemma ClockRoundTrip(m: nat)
    requires m < 24 * 60
    ensures ParseClock(FormatClock(m)) == Some(m)
  {
    var s := FormatClock(m);
    assert s[..2] == Pad(m / 60, 2);
    assert s[3..] == Pad(m % 60, 2);
    PadValue(m / 60, 2);
    PadValue(m % 60, 2);
    assert !IsDigit(s[2]);
    assert s[1] != ':' by { assert IsDigit(s[..2][1]); }
  }

  /** The absolute difference of two minute counts. */
  function Distance(a: int, b: int): nat {
    if a >= b then a - b else b - a
  }

  // ---------------------------------------------------------------- timestamps

  datatype Stamp = Stamp(year: nat, month: nat, day: nat, hour: nat, minute: nat, second: nat)

  /** The instants the clock can return here (four-digit years). */
  predicate ValidStamp(t: Stamp) {
    1000 <= t.year <= 9999 && 1 <= t.month <= 12 && 1 <= t.day <= 31 &&
    t.hour <= 23 && t.minute <= 59 && t.second <= 59
  }

  /** `strftime('%Y%m%d%H%M%S')`. */
  function CompactStamp(t: Stamp): (s: string)
    ensures |s| == 14 && AllDigits(s)
  {
    Pad(t.year, 4) + Pad(t.month, 2) + Pad(t.day, 2) + Pad(t.hour, 2) + Pad(t.minute, 2) + Pad(t.second, 2)
  }

  /** `strftime('%Y-%m-%d %H:%M')`. */
  function DisplayStamp(t: Stamp): (s: string)
    ensures |s| == 16
  {
    Pad(t.year, 4) + "-" + Pad(t.month, 2) + "-" + Pad(t.day, 2) + " " + Pad(t.hour, 2) + ":" + Pad(t.minute, 2)
  }

  /** `strftime('%Y-%m-%d')`, the form dates take in the sheet. */
  function IsoDate(t: Stamp): (s: string)
    ensures |s| == 10 && s[4] == '-' && s[7] == '-'
  {
    Pad(t.year, 4) + "-" + Pad(t.month, 2) + "-" + Pad(t.day, 2)
  }

  /** Reads a compact stamp back, field by field. */
  function ReadCompactStamp(s: string): Stamp
    requires |s| == 14 && AllDigits(s)
  {
    Stamp(DigitsValue(s[0..4]), DigitsValue(s[4..6]), DigitsValue(s[6..8]),
          DigitsValue(s[8..10]), DigitsValue(s[10..12]), DigitsValue(s[12..14]))
  }

  lemma CompactStampRoundTrip(t: Stamp)
    requires ValidStamp(t)
    ensures ReadCompactStamp(CompactStamp(t)) == t
  {
    var y, mo, d, h, mi, se :=
      Pad(t.year, 4), Pad(t.month, 2), Pad(t.day, 2), Pad(t.hour, 2), Pad(t.minute, 2), Pad(t.second, 2);
    var s := CompactStamp(t);
    var p4, p6, p8, p10, p12 := y, y + mo, y + mo + d, y + mo + d + h, y + mo + d + h + mi;
    assert s == p12 + se;
    assert s[12..14] == se && s[..12] == p12;
    assert p12[..10] == p10 && p12[10..12] == mi;
    assert p10[..8] == p8 && p10[8..10] == h;
    assert p8[..6] == p6 && p8[6..8] == d;
    assert p6[..4] == p4 && p6[4..6] == mo;
    assert s[0..4] == y && s[4..6] == mo && s[6..8] == d && s[8..10] == h && s[10..12] == mi;
    PadValue(t.year, 4);
    PadValue(t.month, 2);
    PadValue(t.day, 2);
    PadValue(t.hour, 2);
    PadValue(t.minute, 2);
    PadValue(t.second, 2);
  }

  /** Stamps of distinct seconds have distinct compact forms (and so distinct booking ids). */
  lemma CompactStampInjective(t1: Stamp, t2: Stamp)
    requires ValidStamp(t1) && ValidStamp(t2)
    requires CompactStamp(t1) == CompactStamp(t2)
    ensures t1 == t2
  {
    CompactStampRoundTrip(t1);
    CompactStampRoundTrip(t2);
  }
}
