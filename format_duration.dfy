/**
 * Indonesian rendering of a duration in whole seconds
 * (frontend/src/utils/formatDuration.js), used in the login rate-limit message.
 */
module FormatDuration {
  import opened Wrappers
  import opened Text

  /** `formatDuration(seconds)`; JavaScript `Math.floor` and `%` agree with Dafny's on `seconds >= 60`. */
  function FormatDuration(seconds: int): (r: string)
    ensures |r| > 0
  {
    if seconds < 60 then IntToString(seconds) + " detik"
    else
      var minutes := seconds / 60;
      var remaining := seconds % 60;
      if remaining == 0 then IntToString(minutes) + " menit"
      else IntToString(minutes) + " menit " + IntToString(remaining) + " detik"
  }

  const RateLimitPrefix := "Terlalu banyak percobaan login. Silakan tunggu "
  const RateLimitSuffix := " sebelum mencoba lagi."

  /** `formatRateLimitMessage(retryAfterSeconds)`. */
  function FormatRateLimitMessage(retryAfterSeconds: int): (r: string)
    ensures |r| > |RateLimitPrefix| + |RateLimitSuffix|
    ensures r[..|RateLimitPrefix|] == RateLimitPrefix
    ensures r[|r| - |RateLimitSuffix|..] == RateLimitSuffix
    ensures r[|RateLimitPrefix|..|r| - |RateLimitSuffix|] == FormatDuration(retryAfterSeconds)
  {
    var duration := FormatDuration(retryAfterSeconds);
    var r := RateLimitPrefix + duration + RateLimitSuffix;
    assert r[..|RateLimitPrefix|] == RateLimitPrefix;
    assert r[|RateLimitPrefix|..|r| - |RateLimitSuffix|] == duration;
    r
  }

  /** A reader of the three shapes `formatDuration` produces, the partner of the round trip below. */
  function ParseDuration(text: string): Option<int> {
    var words := Split(text, ' ');
    if |words| == 2 && words[1] == "detik" then ParseInt(words[0])
    else if |words| == 2 && words[1] == "menit" then
      (match ParseInt(words[0]) case Some(m) => Some(m * 60) case None => None)
    else if |words| == 4 && words[1] == "menit" && words[3] == "detik" then
      (match (ParseInt(words[0]), ParseInt(words[2]))
       case (Some(m), Some(s)) => Some(m * 60 + s)
       case _ => None)
    else None
  }

  lemma SplitTwoWords(a: string, b: string)
    requires ' ' !in a && ' ' !in b
    ensures Split(a + " " + b, ' ') == [a, b]
  {
    assert a + " " + b == Join([a, b], ' ');
    SplitJoin([a, b], ' ');
  }

  lemma SplitMinutesSeconds(a: string, b: string)
    requires ' ' !in a && ' ' !in b
    ensures Split(a + " menit " + b + " detik", ' ') == [a, "menit", b, "detik"]
  {
    var tail := b + " detik";
    assert Join([b, "detik"], ' ') == tail;
    assert Join(["menit", b, "detik"], ' ') == "menit " + tail;
    assert a + " menit " + b + " detik" == a + " " + ("menit " + tail);
    assert Join([a, "menit", b, "detik"], ' ') == a + " " + ("menit " + tail);
    SplitJoin([a, "menit", b, "detik"], ' ');
  }

  lemma ParseOneUnit(r: string, a: string, unit: string, n: int)
    requires Split(r, ' ') == [a, unit] && ParseInt(a) == Some(n)
    ensures unit == "detik" ==> ParseDuration(r) == Some(n)
    ensures unit == "menit" ==> ParseDuration(r) == Some(n * 60)
  {
  }

  lemma ParseTwoUnits(r: string, a: string, b: string, m: int, n: int)
    requires Split(r, ' ') == [a, "menit", b, "detik"]
    requires ParseInt(a) == Some(m) && ParseInt(b) == Some(n)
    ensures ParseDuration(r) == Some(m * 60 + n)
  {
  }

  lemma RoundTripUnderMinute(seconds: int)
    requires seconds < 60
    ensures ParseDuration(FormatDuration(seconds)) == Some(seconds)
  {
    var r := FormatDuration(seconds);
    var a := IntToString(seconds);
    IntToStringHasNo(seconds, ' ');
    assert r == a + " " + "detik";
    SplitTwoWords(a, "detik");
    IntToStringRoundTrip(seconds);
    ParseOneUnit(r, a, "detik", seconds);
  }

  lemma RoundTripWholeMinutes(seconds: int)
    requires seconds >= 60 && seconds % 60 == 0
    ensures ParseDuration(FormatDuration(seconds)) == Some(seconds)
  {
    var r := FormatDuration(seconds);
    var m := seconds / 60;
    var a := IntToString(m);
    IntToStringHasNo(m, ' ');
    IntToStringRoundTrip(m);
    assert m * 60 == seconds;
    assert r == a + " " + "menit";
    SplitTwoWords(a, "menit");
    ParseOneUnit(r, a, "menit", m);
  }

  lemma RoundTripMixed(seconds: int)
    requires seconds >= 60 && seconds % 60 != 0
    ensures ParseDuration(FormatDuration(seconds)) == Some(seconds)
  {
    var m, rem := seconds / 60, seconds % 60;
    var text := IntToString(m) + " menit " + IntToString(rem) + " detik";
    MixedParts(seconds);
    assert ParseDuration(text) == Some(seconds) by {
      ParseMixed(m, rem);
    }
  }

  lemma MixedParts(seconds: int)
    requires seconds >= 60 && seconds % 60 != 0
    ensures FormatDuration(seconds) == IntToString(seconds / 60) + " menit " + IntToString(seconds % 60) + " detik"
    ensures seconds / 60 * 60 + seconds % 60 == seconds
  {
  }

  /** The mixed text of m minutes and rem seconds reads back as m * 60 + rem. */
  lemma ParseMixed(m: int, rem: int)
    ensures ParseDuration(IntToString(m) + " menit " + IntToString(rem) + " detik") == Some(m * 60 + rem)
  {
    var a, b := IntToString(m), IntToString(rem);
    IntToStringHasNo(m, ' ');
    IntToStringRoundTrip(m);
    IntToStringHasNo(rem, ' ');
    IntToStringRoundTrip(rem);
    SplitMinutesSeconds(a, b);
    ParseTwoUnits(a + " menit " + b + " detik", a, b, m, rem);
  }

  /**
   * Nothing is lost in the rendering: the number of seconds can be read back
   * from the text, so minutes * 60 + remainder is the input and the remainder
   * part appears exactly when it is non-zero.
   */
  lemma FormatDurationRoundTrip(seconds: int)
    ensures ParseDuration(FormatDuration(seconds)) == Some(seconds)
  {
    if seconds < 60 {
      RoundTripUnderMinute(seconds);
    } else if seconds % 60 == 0 {
      RoundTripWholeMinutes(seconds);
    } else {
      RoundTripMixed(seconds);
    }
  }

  /** The rate-limit message names the waiting time recoverably. */
  lemma RateLimitMessageRoundTrip(retryAfterSeconds: int)
    ensures var m := FormatRateLimitMessage(retryAfterSeconds);
            ParseDuration(m[|RateLimitPrefix|..|m| - |RateLimitSuffix|]) == Some(retryAfterSeconds)
  {
    FormatDurationRoundTrip(retryAfterSeconds);
  }
}
