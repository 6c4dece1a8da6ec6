/**
 * `format_time`: an elapsed time in whole seconds as the harness prints it,
 * `m:ss` under an hour (two minute digits from ten minutes on) and
 * `h:mm:ss` from an hour on.
 */
module Clock {
  import opened Wrappers
  import opened Numerals

  /** `{x:02d}` for a value below 100: two digits, zero-padded. */
  function Pad2(x: nat): (s: string)
    requires x < 100
    ensures |s| == 2 && AllDigits(s) && DigitsValue(s) == x
  {
    var s := [DigitChar(x / 10), DigitChar(x % 10)];
    assert s[..1] == [DigitChar(x / 10)] && s[..1][..0] == [];
    assert DigitsValue(s[..1]) == x / 10;
    assert DigitsValue(s) == 10 * (x / 10) + x % 10;
    s
  }

  /** The three fields `format_time` prints: hours, minutes within the hour, seconds within the minute. */
  datatype Fields = Fields(hours: nat, minutes: nat, seconds: nat)

  function FieldsOf(total: nat): (f: Fields)
    ensures f.minutes < 60 && f.seconds < 60
    ensures f.hours * 3600 + f.minutes * 60 + f.seconds == total
    ensures f.hours == 0 <==> total < 3600
  {
    var q := total / 60;
    var f := Fields(q / 60, q % 60, total % 60);
    assert total == q * 60 + total % 60;
    assert q == (q / 60) * 60 + q % 60;
    f
  }

  /**
   * The printed form: the seconds always take two digits; the minutes take
   * two from ten minutes on, or when hours are shown; the hours, when
   * there are any, take as many as they need.
   */
  function FormatTime(total: nat): (s: string)
    ensures |s| >= 4 && s[|s| - 3] == ':' && s[|s| - 2..] == Pad2(FieldsOf(total).seconds)
    ensures total < 3600 ==> forall i :: 0 <= i < |s| && i != |s| - 3 ==> IsDigit(s[i])
    ensures total >= 3600 ==> |s| >= 7 && s[|s| - 6] == ':'
  {
    var f := FieldsOf(total);
    if f.hours == 0 then
      if f.minutes < 10 then NatToString(f.minutes) + ":" + Pad2(f.seconds)
      else Pad2(f.minutes) + ":" + Pad2(f.seconds)
    else NatToString(f.hours) + ":" + Pad2(f.minutes) + ":" + Pad2(f.seconds)
  }

  /** Reads a printed time back: `m:ss` or `h:mm:ss`, with all-digit fields. */
  function ParseTime(s: string): (r: Option<nat>)
    ensures r.Some? ==> |s| >= 4 && s[|s| - 3] == ':'
  {
    if |s| >= 4 && s[|s| - 3] == ':' && AllDigits(s[|s| - 2..]) then
      var head := s[..|s| - 3];
      var sec := DigitsValue(s[|s| - 2..]);
      if AllDigits(head) then Some(DigitsValue(head) * 60 + sec)
      else if |head| >= 4 && head[|head| - 3] == ':' && AllDigits(head[|head| - 2..]) && AllDigits(head[..|head| - 3]) then
        Some(DigitsValue(head[..|head| - 3]) * 3600 + DigitsValue(head[|head| - 2..]) * 60 + sec)
      else None
    else None
  }

  /** Reading back what `format_time` printed gives the elapsed seconds exactly. */
  lemma FormatTimeRoundTrip(total: nat)
    ensures ParseTime(FormatTime(total)) == Some(total)
  {
    if total < 3600 {
      MinutesRoundTrip(total);
    } else {
      HoursRoundTrip(total);
    }
  }

  /** Under an hour: `m:ss` or `mm:ss` reads back as minutes and seconds. */
  lemma MinutesRoundTrip(total: nat)
    requires total < 3600
    ensures ParseTime(FormatTime(total)) == Some(total)
  {
    var f := FieldsOf(total);
    var s := FormatTime(total);
    var sec := Pad2(f.seconds);
    var mins := if f.minutes < 10 then NatToString(f.minutes) else Pad2(f.minutes);
    assert s == mins + ":" + sec;
    assert s[|s| - 2..] == sec;
    assert s[..|s| - 3] == mins;
    if f.minutes < 10 {
      NatToStringRoundTrip(f.minutes);
    }
    assert DigitsValue(mins) == f.minutes;
  }

  /** From an hour on: `h:mm:ss` reads back as hours, minutes and seconds. */
  lemma HoursRoundTrip(total: nat)
    requires total >= 3600
    ensures ParseTime(FormatTime(total)) == Some(total)
  {
    var f := FieldsOf(total);
    var s := FormatTime(total);
    var sec := Pad2(f.seconds);
    var hrs := NatToString(f.hours);
    var mins := Pad2(f.minutes);
    assert s == hrs + ":" + mins + ":" + sec;
    assert s[|s| - 2..] == sec;
    var head := s[..|s| - 3];
    assert head == hrs + ":" + mins;
    assert !IsDigit(head[|hrs|]);
    assert head[|head| - 2..] == mins;
    assert head[..|head| - 3] == hrs;
    NatToStringRoundTrip(f.hours);
  }
}
