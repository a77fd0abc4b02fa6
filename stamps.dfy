/**
 * UTC timestamps as plain records, with the text forms the backup code
 * writes: `strftime` patterns used in object keys and `isoformat()` used in
 * checkpoint objects, together with the parser that reads the latter back.
 * Every timestamp in the system is UTC, so no offset is carried.
 */
module Stamps {
  import opened Base
  import opened Strings

  datatype DateTime = DateTime(year: nat, month: nat, day: nat,
                               hour: nat, minute: nat, second: nat, micro: nat)

  predicate LeapYear(y: nat)
  {
    (y % 4 == 0 && y % 100 != 0) || y % 400 == 0
  }

  function DaysIn(y: nat, m: nat): nat
  {
    if m == 2 then (if LeapYear(y) then 29 else 28)
    else if m == 4 || m == 6 || m == 9 || m == 11 then 30
    else 31
  }

  /** A calendar instant whose year prints as four digits. */
  predicate Valid(t: DateTime)
  {
    1000 <= t.year <= 9999 && 1 <= t.month <= 12 && 1 <= t.day <= DaysIn(t.year, t.month)
    && t.hour < 24 && t.minute < 60 && t.second < 60 && t.micro < 1000000
  }

  /** A number that orders timestamps as Python orders `datetime` values. */
  function Instant(t: DateTime): int
  {
    ((((((t.year * 13 + t.month) * 32 + t.day) * 24 + t.hour) * 60 + t.minute) * 60
      + t.second) * 1000000 + t.micro)
  }

  predicate Before(a: DateTime, b: DateTime)
  {
    Instant(a) < Instant(b)
  }

  predicate NotAfter(a: DateTime, b: DateTime)
  {
    Instant(a) <= Instant(b)
  }

  // ---------------------------------------------------------------------
  // zero-padded decimal fields

  function Pow10(n: nat): (r: nat)
    ensures r >= 1
  {
    if n == 0 then 1 else 10 * Pow10(n - 1)
  }

  predicate IsDigit(c: char)
  {
    '0' <= c <= '9'
  }

  predicate AllDigits(s: string)
  {
    forall i :: 0 <= i < |s| ==> IsDigit(s[i])
  }

  function DigitChar(d: nat): (c: char)
    requires d < 10
    ensures IsDigit(c)
  {
    ('0' as int + d) as char
  }

  /** `n` printed with exactly `w` digits, as `%0wd` does for `n < 10^w`. */
  function Pad(n: nat, w: nat): (r: string)
    ensures |r| == w && AllDigits(r)
  {
    if w == 0 then "" else Pad(n / 10, w - 1) + [DigitChar(n % 10)]
  }

  /** The number a string of decimal digits denotes. */
  function DigitsValue(s: string): nat
    requires AllDigits(s)
  {
    if |s| == 0 then 0
    else DigitsValue(s[..|s| - 1]) * 10 + (s[|s| - 1] as int - '0' as int)
  }

  /** Reading a padded field back gives the number that was printed. */
  lemma {:induction false} PadValue(n: nat, w: nat)
    requires n < Pow10(w)
    ensures DigitsValue(Pad(n, w)) == n
  {
    if w > 0 {
      PadValue(n / 10, w - 1);
      var r := Pad(n, w);
      assert r[..|r| - 1] == Pad(n / 10, w - 1);
    }
  }

  lemma PadInjective(n: nat, m: nat, w: nat)
    requires n < Pow10(w) && m < Pow10(w)
    requires Pad(n, w) == Pad(m, w)
    ensures n == m
  {
    PadValue(n, w);
    PadValue(m, w);
  }

  function ParseDigits(s: string): (r: Option<nat>)
    ensures r.Some? <==> AllDigits(s)
  {
    if AllDigits(s) then Some(DigitsValue(s)) else None
  }

  // ---------------------------------------------------------------------
  // strftime patterns

  /** `%Y%m%d`. */
  function DateDigits(t: DateTime): (r: string)
    ensures |r| == 8
  {
    Pad(t.year, 4) + Pad(t.month, 2) + Pad(t.day, 2)
  }

  /** `%Y%m%dT%H%MZ`, the window label of the event-driven pipeline. */
  function WindowLabel(t: DateTime): (r: string)
    ensures |r| == 14
  {
    DateDigits(t) + "T" + Pad(t.hour, 2) + Pad(t.minute, 2) + "Z"
  }

  /** `%Y%m%d-%H%M%S`, the run identifier. */
  function RunStamp(t: DateTime): (r: string)
    ensures |r| == 15
  {
    DateDigits(t) + "-" + Pad(t.hour, 2) + Pad(t.minute, 2) + Pad(t.second, 2)
  }

  /** Window labels and run identifiers hold no `/`, so each fills one segment of a key. */
  lemma StampsHaveNoSlash(t: DateTime)
    ensures '/' !in WindowLabel(t) && '/' !in RunStamp(t)
  {
  }

  /** `%Y%m%d_%H%M%S`, the suffix of configuration snapshot files. */
  function SnapshotStamp(t: DateTime): (r: string)
    ensures |r| == 15
  {
    DateDigits(t) + "_" + Pad(t.hour, 2) + Pad(t.minute, 2) + Pad(t.second, 2)
  }

  /** `year=%Y/month=%m/day=%d/hour=%H`, the date partition of object keys. */
  function HourPartition(t: DateTime): string
  {
    "year=" + Pad(t.year, 4) + "/month=" + Pad(t.month, 2) + "/day=" + Pad(t.day, 2)
    + "/hour=" + Pad(t.hour, 2)
  }

  /** Two window labels are equal only for the same minute of the same day. */
  lemma WindowLabelInjective(a: DateTime, b: DateTime)
    requires Valid(a) && Valid(b)
    requires WindowLabel(a) == WindowLabel(b)
    ensures a.year == b.year && a.month == b.month && a.day == b.day
    ensures a.hour == b.hour && a.minute == b.minute
  {
    var la, lb := WindowLabel(a), WindowLabel(b);
    assert la[0..4] == Pad(a.year, 4) && lb[0..4] == Pad(b.year, 4);
    assert la[4..6] == Pad(a.month, 2) && lb[4..6] == Pad(b.month, 2);
    assert la[6..8] == Pad(a.day, 2) && lb[6..8] == Pad(b.day, 2);
    assert la[9..11] == Pad(a.hour, 2) && lb[9..11] == Pad(b.hour, 2);
    assert la[11..13] == Pad(a.minute, 2) && lb[11..13] == Pad(b.minute, 2);
    PadInjective(a.year, b.year, 4);
    PadInjective(a.month, b.month, 2);
    PadInjective(a.day, b.day, 2);
    PadInjective(a.hour, b.hour, 2);
    PadInjective(a.minute, b.minute, 2);
  }

  // ---------------------------------------------------------------------
  // isoformat / fromisoformat

  /** `datetime.isoformat()` of a UTC-aware timestamp. */
  function IsoFormat(t: DateTime): string
  {
    IsoHead(t)
    + (if t.micro == 0 then "" else "." + Pad(t.micro, 6))
    + "+00:00"
  }

  /** The fixed `YYYY-MM-DDTHH:MM:SS` head of an ISO timestamp. */
  function IsoHead(t: DateTime): (r: string)
    ensures |r| == 19
  {
    Pad(t.year, 4) + "-" + Pad(t.month, 2) + "-" + Pad(t.day, 2) + "T"
    + Pad(t.hour, 2) + ":" + Pad(t.minute, 2) + ":" + Pad(t.second, 2)
  }

  function ParseHead(h: string): (r: Option<DateTime>)
    requires |h| == 19
  {
    var y, mo, d := ParseDigits(h[0..4]), ParseDigits(h[5..7]), ParseDigits(h[8..10]);
    var hh, mi, ss := ParseDigits(h[11..13]), ParseDigits(h[14..16]), ParseDigits(h[17..19]);
    if h[4] != '-' || h[7] != '-' || h[10] != 'T' || h[13] != ':' || h[16] != ':' then None
    else if y.None? || mo.None? || d.None? || hh.None? || mi.None? || ss.None? then None
    else Some(DateTime(y.value, mo.value, d.value, hh.value, mi.value, ss.value, 0))
  }

  /**
   * `datetime.fromisoformat(s)` for the UTC forms this system writes and
   * reads: a 19-character head, an optional fraction of three or six
   * digits, and the offset `+00:00`. Out-of-range fields are rejected.
   */
  function ParseIso(s: string): (r: Option<DateTime>)
    ensures r.Some? ==> Valid(r.value)
  {
    if |s| < 25 || s[|s| - 6..] != "+00:00" then None
    else
      var body := s[..|s| - 6];
      var head := ParseHead(body[..19]);
      var micro :=
        if |body| == 19 then Some(0)
        else if |body| == 23 && body[19] == '.' then
          (match ParseDigits(body[20..23]) case Some(ms) => Some(ms * 1000) case None => None)
        else if |body| == 26 && body[19] == '.' then ParseDigits(body[20..26])
        else None;
      match (head, micro)
        case (Some(t), Some(us)) =>
          var full := t.(micro := us);
          if Valid(full) then Some(full) else None
        case _ => None
  }

  /**
   * `datetime.fromisoformat(s.replace("Z", "+00:00"))`, the way event times
   * and inventory dates in `...Z` form are read.
   */
  function ParseUtc(s: string): (r: Option<DateTime>)
    ensures r.Some? ==> Valid(r.value)
  {
    ParseIso(ReplaceAll(s, "Z", "+00:00"))
  }

  lemma ParseHeadOfFormat(t: DateTime)
    requires Valid(t)
    ensures ParseHead(IsoHead(t)) == Some(t.(micro := 0))
  {
    var h := IsoHead(t);
    assert h[0..4] == Pad(t.year, 4) && h[4] == '-';
    assert h[5..7] == Pad(t.month, 2) && h[7] == '-';
    assert h[8..10] == Pad(t.day, 2) && h[10] == 'T';
    assert h[11..13] == Pad(t.hour, 2) && h[13] == ':';
    assert h[14..16] == Pad(t.minute, 2) && h[16] == ':';
    assert h[17..19] == Pad(t.second, 2);
    PadValue(t.year, 4);
    PadValue(t.month, 2);
    PadValue(t.day, 2);
    PadValue(t.hour, 2);
    PadValue(t.minute, 2);
    PadValue(t.second, 2);
  }

  /** Reading back what `isoformat()` wrote yields the same instant. */
  lemma IsoRoundTrip(t: DateTime)
    requires Valid(t)
    ensures ParseIso(IsoFormat(t)) == Some(t)
  {
    var s := IsoFormat(t);
    var frac := if t.micro == 0 then "" else "." + Pad(t.micro, 6);
    var head := IsoHead(t);
    assert s == head + frac + "+00:00";
    assert s[|s| - 6..] == "+00:00";
    var body := s[..|s| - 6];
    assert body == head + frac;
    assert body[..19] == head;
    ParseHeadOfFormat(t);
    if t.micro != 0 {
      assert body[19] == '.';
      assert body[20..26] == Pad(t.micro, 6);
      PadValue(t.micro, 6);
    }
  }
}
