/**
  `formatTime` of the player screen: a playback position in milliseconds shown
  as `MM:SS` through `String.format("%02d:%02d", minutes, seconds)`, with
  Kotlin's truncating `Int` division. `ParseClock` reads such a display back
  into its two fields, and `FormatTimeRoundTrip` shows that it inverts
  `FormatTime`.
 */
module TimeFormat {

  import opened Optional
  import opened KotlinInt
  import Decimal

  const MsPerSecond: int := 1000
  const SecondsPerMinute: int := 60
  const MsPerMinute: int := 60_000  // `1000 * 60`

  /** The two fields of an `MM:SS` display. */
  datatype Clock = Clock(minutes: int, seconds: int)

  /**
    `%02d`: the decimal form of `n`, zero-padded on the left to width two.
    A negative value keeps its sign in front; its text is already two
    characters wide, so it is never padded.
   */
  function Pad2(n: int): (s: string)
    ensures 2 <= |s|
    ensures 0 <= n < 100 <==> |s| == 2 && Decimal.AllDigits(s)
    ensures ':' !in s
    ensures 10 <= n ==> s[0] != '0'
    ensures n < 0 ==> s[0] == '-' && s[1] != '0'
  {
    if n < 0 then
      var s := "-" + Decimal.FromNat(-n);
      assert !Decimal.IsDigit(s[0]);
      Decimal.FromNatNoLeadingZero(-n);
      s
    else if n < 10 then "0" + Decimal.FromNat(n)
    else
      Decimal.FromNatNoLeadingZero(n);
      Decimal.FromNat(n)
  }

  /** Reads an optionally signed decimal integer; anything else is `None`. */
  function ParseInt(s: string): (r: Option<int>)
    ensures r.Some? ==> 1 <= |s|
  {
    if 2 <= |s| && s[0] == '-' && Decimal.AllDigits(s[1..]) then
      var magnitude: int := Decimal.ToNat(s[1..]);
      Some(-magnitude)
    else if 1 <= |s| && Decimal.AllDigits(s) then Some(Decimal.ToNat(s))
    else None
  }

  /** The position of the first `c` in `s`. */
  function IndexOf(s: string, c: char): (i: nat)
    requires c in s
    ensures i < |s| && s[i] == c
    ensures forall j :: 0 <= j < i ==> s[j] != c
  {
    if s[0] == c then 0 else 1 + IndexOf(s[1..], c)
  }

  /** Reads an `M:S` display back into its two fields, splitting at the first colon. */
  function ParseClock(s: string): Option<Clock> {
    if ':' !in s then None
    else
      var i := IndexOf(s, ':');
      match (ParseInt(s[..i]), ParseInt(s[i + 1..]))
      case (Some(m), Some(sec)) => Some(Clock(m, sec))
      case _ => None
  }

  /** Formats a position in milliseconds as minutes and seconds. */
  function FormatTime(timeMs: int): (r: string)
    requires IsInt(timeMs)
    ensures 5 <= |r|
  {
    var seconds := Rem(Quot(timeMs, MsPerSecond), SecondsPerMinute);
    var minutes := Quot(timeMs, MsPerMinute);
    Pad2(minutes) + ":" + Pad2(seconds)
  }

  /** `%02d` is read back as the number it printed. */
  lemma Pad2RoundTrip(n: int)
    ensures ParseInt(Pad2(n)) == Some(n)
  {
    if n < 0 {
      Decimal.ToNatFromNat(-n);
      assert Pad2(n)[1..] == Decimal.FromNat(-n);
    } else if n < 10 {
      Decimal.ToNatFromNat(n);
      Decimal.ToNatLeadingZero(Decimal.FromNat(n));
    } else {
      Decimal.ToNatFromNat(n);
    }
  }

  /** A display `a:b` whose fields hold no colon splits back into `a` and `b`. */
  lemma ParseClockJoin(a: string, b: string)
    requires ':' !in a && ':' !in b
    ensures var s := a + ":" + b;
      ParseClock(s) == match (ParseInt(a), ParseInt(b))
                       case (Some(m), Some(sec)) => Some(Clock(m, sec))
                       case _ => None
  {
    var s := a + ":" + b;
    assert s[|a|] == ':';
    var i := IndexOf(s, ':');
    assert i == |a|;
    assert s[..i] == a;
    assert s[i + 1..] == b;
  }

  /**
    Every display reads back as the Kotlin quotient of the position by one
    minute and the Kotlin remainder of its whole seconds by sixty, for the
    whole `Int` range, negative positions included.
   */
  lemma FormatTimeRoundTrip(timeMs: int)
    requires IsInt(timeMs)
    ensures ParseClock(FormatTime(timeMs))
         == Some(Clock(Quot(timeMs, MsPerMinute), Rem(Quot(timeMs, MsPerSecond), SecondsPerMinute)))
  {
    var minutes := Quot(timeMs, MsPerMinute);
    var seconds := Rem(Quot(timeMs, MsPerSecond), SecondsPerMinute);
    Pad2RoundTrip(minutes);
    Pad2RoundTrip(seconds);
    ParseClockJoin(Pad2(minutes), Pad2(seconds));
  }

  /**
    For a non-negative position the seconds field is `(timeMs / 1000) % 60`,
    always within 0..59, and the minutes field is `timeMs / 60000`, which is
    never carried into hours.
   */
  lemma FormatTimeFields(timeMs: int)
    requires IsInt(timeMs) && 0 <= timeMs
    ensures ParseClock(FormatTime(timeMs)) == Some(Clock(timeMs / MsPerMinute, (timeMs / MsPerSecond) % SecondsPerMinute))
    ensures var c := ParseClock(FormatTime(timeMs)).value; 0 <= c.seconds <= 59 && 0 <= c.minutes
  {
    FormatTimeRoundTrip(timeMs);
    AgreesOnNonNegative(timeMs, MsPerMinute);
    AgreesOnNonNegative(timeMs, MsPerSecond);
    AgreesOnNonNegative(timeMs / MsPerSecond, SecondsPerMinute);
  }

  /**
    Below 100 minutes the display is exactly five characters: two digits,
    a colon, two digits.
   */
  lemma FormatTimeShape(timeMs: int)
    requires 0 <= timeMs < 6_000_000
    ensures var r := FormatTime(timeMs);
      && |r| == 5 && r[2] == ':'
      && Decimal.IsDigit(r[0]) && Decimal.IsDigit(r[1])
      && Decimal.IsDigit(r[3]) && Decimal.IsDigit(r[4])
  {
    var minutes := Quot(timeMs, MsPerMinute);
    var seconds := Rem(Quot(timeMs, MsPerSecond), SecondsPerMinute);
    AgreesOnNonNegative(timeMs, MsPerMinute);
    assert minutes < 100;
    assert 0 <= seconds < 60;
  }

  /** The documented sample values, including an hour shown as sixty minutes. */
  lemma FormatTimeExamples()
    ensures FormatTime(0) == "00:00"
    ensures FormatTime(65000) == "01:05"
    ensures FormatTime(3_600_000) == "60:00"
  {
    assert Decimal.FromNat(60) == "60";
  }

  /**
    A negative position keeps the sign on each field separately, since Kotlin
    truncates toward zero: minus 65 seconds shows as `-1:-5`, and minus one
    millisecond as `00:00`.
   */
  lemma FormatTimeNegativeExamples()
    ensures FormatTime(-65000) == "-1:-5"
    ensures FormatTime(-1) == "00:00"
  {
  }

  /**
    Every position strictly between minus one and one second shows as
    `00:00`: both fields truncate to zero, so no sign appears.
   */
  lemma FormatTimeNearZero(timeMs: int)
    requires -1000 < timeMs < 1000
    ensures FormatTime(timeMs) == "00:00"
  {
  }
}
