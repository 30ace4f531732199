/** `seconds_to_srt_time`: a non-negative time in seconds written in the
    SubRip time syntax `HH:MM:SS,mmm`. Time is an exact `real`; Python's
    float `//` and `%` are written out with `Floor`, and `int()` on a
    non-negative value truncates, which is flooring. */
module SrtTime {
  import opened Text
  import opened Wrappers

  /** The four fields the source computes before formatting them. */
  datatype Clock = Clock(hours: nat, minutes: nat, seconds: nat, millis: nat) {

    /** Minutes and seconds below 60, milliseconds below 1000. */
    predicate Normal() {
      minutes < 60 && seconds < 60 && millis < 1000
    }
  }

  /** The instant a clock denotes, in whole milliseconds. */
  function TotalMillis(c: Clock): nat {
    c.hours * 3_600_000 + c.minutes * 60_000 + c.seconds * 1000 + c.millis
  }

  /** Python's `x // m` for `m > 0`. */
  function FloorDiv(x: real, m: real): int
    requires m > 0.0
  {
    (x / m).Floor
  }

  /** Python's `x % m` for `m > 0`: `x - m * (x // m)`. */
  function FloorMod(x: real, m: real): real
    requires m > 0.0
  {
    x - m * (FloorDiv(x, m) as real)
  }

  lemma MulMono(a: real, b: real, m: real)
    requires m > 0.0
    ensures a <= b ==> a * m <= b * m
    ensures a < b ==> a * m < b * m
  {
  }

  lemma BelowOne(a: real, m: real)
    requires 0.0 <= a < m
    ensures 0.0 <= a / m < 1.0
  {
    var q := a / m;
    assert q * m == a;
    if q >= 1.0 {
      MulMono(1.0, q, m);
    }
    if q < 0.0 {
      MulMono(q, 0.0, m);
    }
  }

  /** Python's `int(x)` for `x >= 0` (truncation toward zero). */
  function Int(x: real): nat
    requires x >= 0.0
  {
    x.Floor
  }

  /** The fields of video.py's `seconds_to_srt_time`, computed the way it
      computes them. The result is the time truncated (never rounded) to
      whole milliseconds, with minutes and seconds below 60. */
  function ToClock(seconds: real): Clock
    requires seconds >= 0.0
  {
    ToClockMillis(seconds);
    Clock(Int(FloorDiv(seconds, 3600.0) as real),
          Int(FloorDiv(FloorMod(seconds, 3600.0), 60.0) as real),
          Int(FloorMod(seconds, 60.0)),
          Int(FloorMod(seconds, 1.0) * 1000.0))
  }

  /** The fields of `ToClock` are a normal clock for `floor(1000 * seconds)`
      milliseconds. */
  lemma ToClockSpec(seconds: real)
    requires seconds >= 0.0
    ensures ToClock(seconds).Normal()
    ensures TotalMillis(ToClock(seconds)) == (seconds * 1000.0).Floor
  {
    ToClockMillis(seconds);
  }

  /** `floor(k + y) == k` for an integer `k` and `0 <= y < 1`. */
  lemma FloorOfIntPlus(k: int, y: real)
    requires 0.0 <= y < 1.0
    ensures (k as real + y).Floor == k
  {
  }

  /** Adding an integer commutes with `floor`. */
  lemma FloorShift(k: int, y: real)
    ensures (k as real + y).Floor == k + y.Floor
  {
    FloorOfIntPlus(k + y.Floor, y - y.Floor as real);
    assert k as real + y == (k + y.Floor) as real + (y - y.Floor as real);
  }

  /** For `x >= 0`, Python's `x // m` and `x % m` only depend on the whole
      part of `x` through integer division, plus the fraction of `x`. */
  lemma FloorDivParts(x: real, m: int)
    requires x >= 0.0 && m > 0
    ensures FloorDiv(x, m as real) == x.Floor / m
    ensures FloorMod(x, m as real) == (x.Floor % m) as real + (x - x.Floor as real)
  {
    var n, f := x.Floor, x - x.Floor as real;
    var q, r := n / m, n % m;
    assert n == q * m + r;
    var y := (r as real + f) / (m as real);
    assert r as real + f < m as real;
    BelowOne(r as real + f, m as real);
    assert x / (m as real) == q as real + y;
    FloorOfIntPlus(q, y);
  }

  /** The milliseconds of `x` are those of its whole part plus those of
      its fraction. */
  lemma MillisParts(x: real)
    requires x >= 0.0
    ensures var f := x - x.Floor as real;
            0 <= (f * 1000.0).Floor < 1000
            && (x * 1000.0).Floor == x.Floor * 1000 + (f * 1000.0).Floor
  {
    var n, f := x.Floor, x - x.Floor as real;
    FloorShift(n * 1000, f * 1000.0);
    assert x * 1000.0 == (n * 1000) as real + f * 1000.0;
  }

  /** Whole seconds split into hours, minutes below 60 and seconds below 60. */
  lemma HoursMinutesSeconds(n: nat)
    ensures (n % 3600) / 60 < 60 && n % 60 < 60
    ensures n * 1000 == (n / 3600) * 3_600_000 + ((n % 3600) / 60) * 60_000 + (n % 60) * 1000
  {
    var q, r := n / 3600, n % 3600;
    var m, s := r / 60, r % 60;
    assert n == q * 3600 + r && r < 3600;
    assert r == m * 60 + s && 0 <= s < 60;
    assert m < 60;
    assert n == (q * 60 + m) * 60 + s;
    SixtyRemainder(n, q * 60 + m, s);
    assert n * 1000 == q * 3_600_000 + m * 60_000 + s * 1000;
  }

  lemma SixtyRemainder(n: int, k: int, s: int)
    requires 0 <= s < 60 && n == k * 60 + s
    ensures n % 60 == s
  {
  }

  lemma ToClockMillis(x: real)
    requires x >= 0.0
    ensures FloorDiv(x, 3600.0) >= 0 && FloorMod(x, 3600.0) >= 0.0
    ensures FloorDiv(FloorMod(x, 3600.0), 60.0) >= 0
    ensures FloorMod(x, 60.0) >= 0.0 && FloorMod(x, 1.0) >= 0.0
    ensures var c := Clock(Int(FloorDiv(x, 3600.0) as real),
                           Int(FloorDiv(FloorMod(x, 3600.0), 60.0) as real),
                           Int(FloorMod(x, 60.0)),
                           Int(FloorMod(x, 1.0) * 1000.0));
            c.Normal() && TotalMillis(c) == (x * 1000.0).Floor
  {
    var n, f := x.Floor, x - x.Floor as real;
    FloorDivParts(x, 3600);
    FloorDivParts(x, 60);
    FloorDivParts(x, 1);
    var y := FloorMod(x, 3600.0);
    assert y == (n % 3600) as real + f;
    FloorDivParts(y, 60);
    assert y.Floor == n % 3600;
    MillisParts(x);
    HoursMinutesSeconds(n);
    assert Int(FloorDiv(x, 3600.0) as real) == n / 3600;
    assert Int(FloorDiv(y, 60.0) as real) == (n % 3600) / 60;
    assert Int(FloorMod(x, 60.0)) == n % 60;
    assert Int(FloorMod(x, 1.0) * 1000.0) == (f * 1000.0).Floor;
  }

  /** Python's `f"{h:02d}:{m:02d}:{s:02d},{ms:03d}"`. */
  function Format(c: Clock): string {
    ZeroPadded(c.hours, 2) + ":" + ZeroPadded(c.minutes, 2) + ":"
    + ZeroPadded(c.seconds, 2) + "," + ZeroPadded(c.millis, 3)
  }

  /** video.py's `seconds_to_srt_time`. */
  function SecondsToSrtTime(seconds: real): string
    requires seconds >= 0.0
  {
    Format(ToClock(seconds))
  }

  /** Reads an `HH:MM:SS,mmm` stamp back (at least two hour digits). */
  function Parse(s: string): Option<Clock> {
    if |s| < 12 then None
    else
      var n := |s|;
      var h, m, sec, ms := s[..n - 10], s[n - 9..n - 7], s[n - 6..n - 4], s[n - 3..];
      if s[n - 10] == ':' && s[n - 7] == ':' && s[n - 4] == ','
         && AllDigits(h) && AllDigits(m) && AllDigits(sec) && AllDigits(ms)
      then Some(Clock(DecimalValue(h), DecimalValue(m), DecimalValue(sec), DecimalValue(ms)))
      else None
  }

  lemma ParseParts(h: string, m: string, s: string, ms: string)
    requires |h| >= 2 && |m| == 2 && |s| == 2 && |ms| == 3
    requires AllDigits(h) && AllDigits(m) && AllDigits(s) && AllDigits(ms)
    ensures Parse(h + [':'] + m + [':'] + s + [','] + ms)
            == Some(Clock(DecimalValue(h), DecimalValue(m), DecimalValue(s), DecimalValue(ms)))
  {
    StampSlices(h, m, s, ms);
    ParseFields(h + [':'] + m + [':'] + s + [','] + ms, h, m, s, ms);
  }

  /** A string whose fields and separators sit where a stamp has them reads
      as the clock of those fields. */
  lemma ParseFields(t: string, h: string, m: string, s: string, ms: string)
    requires |h| >= 2 && AllDigits(h) && AllDigits(m) && AllDigits(s) && AllDigits(ms)
    requires var n := |t|;
             n == |h| + 10 && t[..n - 10] == h && t[n - 9..n - 7] == m && t[n - 6..n - 4] == s
             && t[n - 3..] == ms && t[n - 10] == ':' && t[n - 7] == ':' && t[n - 4] == ','
    ensures Parse(t) == Some(Clock(DecimalValue(h), DecimalValue(m), DecimalValue(s), DecimalValue(ms)))
  {
  }

  lemma StampSlices(h: string, m: string, s: string, ms: string)
    requires |m| == 2 && |s| == 2 && |ms| == 3
    ensures var t := h + [':'] + m + [':'] + s + [','] + ms; var n := |t|;
            n == |h| + 10 && t[..n - 10] == h && t[n - 9..n - 7] == m && t[n - 6..n - 4] == s
            && t[n - 3..] == ms && t[n - 10] == ':' && t[n - 7] == ':' && t[n - 4] == ','
  {
    var t := h + [':'] + m + [':'] + s + [','] + ms;
    var n := |t|;
    assert t[..n - 10] == h;
    assert t[n - 9..n - 7] == m;
    assert t[n - 6..n - 4] == s;
    assert t[n - 3..] == ms;
  }

  /** A formatted clock reads back as the same clock: the encoding loses
      nothing beyond the truncation to milliseconds. */
  lemma FormatParse(c: Clock)
    requires c.Normal()
    ensures Parse(Format(c)) == Some(c)
  {
    var h, m, s, ms := ZeroPadded(c.hours, 2), ZeroPadded(c.minutes, 2),
                       ZeroPadded(c.seconds, 2), ZeroPadded(c.millis, 3);
    ZeroPaddedSpec(c.hours, 2);
    ZeroPaddedSpec(c.minutes, 2);
    ZeroPaddedSpec(c.seconds, 2);
    ZeroPaddedSpec(c.millis, 3);
    assert Pow10(2) == 100 && Pow10(3) == 1000;
    assert Format(c) == h + [':'] + m + [':'] + s + [','] + ms;
    ParseParts(h, m, s, ms);
  }

  /** The stamp of a clock is the hours, padded to at least two digits,
      followed by ten characters (`:MM:SS,mmm`); below 100 hours it is the
      twelve characters of `HH:MM:SS,mmm`. */
  lemma FormatWidths(c: Clock)
    requires c.Normal()
    ensures |Format(c)| == |ZeroPadded(c.hours, 2)| + 10
    ensures c.hours < 100 ==> |Format(c)| == 12
  {
    ZeroPaddedSpec(c.hours, 2);
    ZeroPaddedSpec(c.minutes, 2);
    ZeroPaddedSpec(c.seconds, 2);
    ZeroPaddedSpec(c.millis, 3);
    assert Pow10(2) == 100 && Pow10(3) == 1000;
  }

  /** The encoded time is `floor(1000 * seconds)` milliseconds, laid out with
      minutes and seconds below 60; it never exceeds `seconds` and falls
      short of it by less than one millisecond. */
  lemma {:induction false} SecondsToSrtTimeMeaning(seconds: real)
    requires seconds >= 0.0
    ensures Parse(SecondsToSrtTime(seconds)) == Some(ToClock(seconds))
    ensures var ms := TotalMillis(ToClock(seconds)) as real / 1000.0;
            ms <= seconds < ms + 1.0 / 1000.0
  {
    ToClockSpec(seconds);
    FormatParse(ToClock(seconds));
  }

  /** A later time never encodes to an earlier stamp. */
  lemma {:induction false} ToClockMonotonic(a: real, b: real)
    requires 0.0 <= a <= b
    ensures TotalMillis(ToClock(a)) <= TotalMillis(ToClock(b))
  {
    ToClockSpec(a);
    ToClockSpec(b);
    assert a * 1000.0 <= b * 1000.0;
  }

  lemma ZeroTotal(c: Clock)
    requires TotalMillis(c) == 0
    ensures c == Clock(0, 0, 0, 0)
  {
  }

  lemma ZeroMillis(x: real)
    requires x == 0.0
    ensures TotalMillis(ToClock(x)) == 0
  {
    ToClockSpec(x);
  }

  lemma ZeroClock(x: real)
    requires x == 0.0
    ensures ToClock(x) == Clock(0, 0, 0, 0)
  {
    ZeroMillis(x);
    ZeroTotal(ToClock(x));
  }

  lemma ZeroFormat()
    ensures Format(Clock(0, 0, 0, 0)) == "00:00:00,000"
  {
    assert ZeroPadded(0, 2) == "00" by {
      assert Decimal(0) == "0";
      assert Zeros(1) == "0";
    }
    assert ZeroPadded(0, 3) == "000" by {
      assert Decimal(0) == "0";
      assert Zeros(2) == "00";
    }
  }

  lemma ZeroStampAt(x: real)
    requires x == 0.0
    ensures SecondsToSrtTime(x) == "00:00:00,000"
  {
    ZeroClock(x);
    ZeroFormat();
  }

  /** `seconds_to_srt_time(0)` is `"00:00:00,000"`. */
  lemma ZeroStamp()
    ensures SecondsToSrtTime(0.0) == "00:00:00,000"
  {
    ZeroStampAt(0.0);
  }

  lemma OneHourOneMinuteStamp()
    ensures SecondsToSrtTime(3661.25) == "01:01:01,250"
  {
    FloorDivParts(3661.25, 3600);
    FloorDivParts(3661.25, 60);
    FloorDivParts(3661.25, 1);
    assert 3661.25.Floor == 3661;
    assert ((0.25 * 1000.0) as real).Floor == 250;
    assert ToClock(3661.25) == Clock(1, 1, 1, 250);
    assert Decimal(1) == "1" && Zeros(1) == "0";
    assert ZeroPadded(1, 2) == "01";
    assert Decimal(25) == "25";
    assert Decimal(250) == "250";
    assert ZeroPadded(250, 3) == "250";
  }
}
