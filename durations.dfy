/** The two renderings of a session's length that a stop response carries: whole
    seconds, and the `HH:MM:SS` part of an ISO-8601 timestamp built from them. */
module Durations {
  import opened Wrappers
  import opened Decimal

  const SecondsPerDay := 86400

  /** `Math.round(ms / 1000)`: the nearest whole second, a half second rounding up
      (towards positive infinity, also for negative ms). */
  function RoundToSeconds(ms: int): (s: int)
    ensures s * 1000 - 500 <= ms < s * 1000 + 500
    ensures ms >= 0 ==> s >= 0
  {
    (ms + 500) / 1000
  }

  /** The rounding is the only integer within half a second of ms. */
  lemma RoundToSecondsUnique(ms: int, s: int)
    requires s * 1000 - 500 <= ms < s * 1000 + 500
    ensures s == RoundToSeconds(ms)
  {
    var r := RoundToSeconds(ms);
    assert (s - r) * 1000 < 1000 && (r - s) * 1000 < 1000;
  }

  function Pad2(n: nat): (s: string)
    requires n < 100
    ensures |s| == 2 && AllDigits(s) && DigitsValue(s) == n
  {
    var s := [DigitChar(n / 10), DigitChar(n % 10)];
    assert s[..1] == [DigitChar(n / 10)];
    assert [DigitChar(n / 10)][..0] == [];
    assert DigitsValue(s[..1]) == n / 10;
    s
  }

  /** `new Date(seconds * 1000).toISOString().substr(11, 8)`: the UTC time of day,
      which is the seconds taken modulo one day (the floor modulo, so that a negative
      count reads as a time on the day before the epoch), as two-digit hours,
      minutes and seconds. */
  function FormatHMS(seconds: int): (s: string)
    ensures |s| == 8 && s[2] == ':' && s[5] == ':'
    ensures AllDigits(s[0..2]) && AllDigits(s[3..5]) && AllDigits(s[6..8])
  {
    var t := seconds % SecondsPerDay;
    var s := Pad2(t / 3600) + ":" + Pad2(t % 3600 / 60) + ":" + Pad2(t % 60);
    assert s[0..2] == Pad2(t / 3600);
    assert s[3..5] == Pad2(t % 3600 / 60);
    assert s[6..8] == Pad2(t % 60);
    s
  }

  /** Reads an `HH:MM:SS` string back as seconds since midnight. */
  function ParseHMS(s: string): (r: Option<nat>)
    ensures r.Some? ==> r.value < SecondsPerDay
  {
    if |s| == 8 && s[2] == ':' && s[5] == ':'
       && AllDigits(s[0..2]) && AllDigits(s[3..5]) && AllDigits(s[6..8])
    then
      var h, m, sec := DigitsValue(s[0..2]), DigitsValue(s[3..5]), DigitsValue(s[6..8]);
      if h < 24 && m < 60 && sec < 60 then Some(h * 3600 + m * 60 + sec) else None
    else None
  }

  /** The formatted string carries exactly the seconds modulo one day. */
  lemma FormatHMSRoundTrip(seconds: int)
    ensures ParseHMS(FormatHMS(seconds)) == Some(seconds % SecondsPerDay)
  {
    var t := seconds % SecondsPerDay;
    var s := FormatHMS(seconds);
    assert s[0..2] == Pad2(t / 3600);
    assert s[3..5] == Pad2(t % 3600 / 60);
    assert s[6..8] == Pad2(t % 60);
    assert t / 3600 * 3600 + t % 3600 / 60 * 60 + t % 60 == t;
  }

  /** The string is a function of the seconds value alone, and two counts give the
      same string exactly when they agree modulo one day. */
  lemma FormatHMSAgrees(a: int, b: int)
    ensures FormatHMS(a) == FormatHMS(b) <==> a % SecondsPerDay == b % SecondsPerDay
  {
    FormatHMSRoundTrip(a);
    FormatHMSRoundTrip(b);
  }
}
