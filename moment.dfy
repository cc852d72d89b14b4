/**
 * Clock-text helpers: a number of seconds as hours, minutes and seconds, and
 * the date and time parts cut out of a timestamp's text.
 */
module Moment {
  import opened Strings

  /** A field as the template writes it: a "0" before values below 10. */
  function Field(n: int): (r: string)
    ensures 0 <= n < 100 ==> r == PadStart2(NatToString(n))
  {
    if n < 10 then "0" + IntToString(n) else IntToString(n)
  }

  /** The three fields of `time`/`time2`: floored hours, then minutes and seconds by truncating remainders. */
  function ClockFields(seconds: int): (f: seq<string>)
    ensures |f| == 3
  {
    [Field(seconds / 3600), Field(JsRem(seconds, 3600) / 60), Field(JsRem(seconds, 60))]
  }

  /** `time`: "HH:mm:ss". */
  function Time(seconds: int): string
  {
    Join(ClockFields(seconds), ':')
  }

  const HOURS_LABEL: string := " Giờ - "
  const MINUTES_LABEL: string := " Phút - "
  const SECONDS_LABEL: string := " Giây"

  /** `time2`: the same fields with Vietnamese unit labels. */
  function Time2(seconds: int): string
  {
    var f := ClockFields(seconds);
    f[0] + HOURS_LABEL + f[1] + MINUTES_LABEL + f[2] + SECONDS_LABEL
  }

  lemma FieldDigits(n: nat)
    ensures AllDigits(Field(n)) && |Field(n)| >= 2 && DigitsValue(Field(n)) == n
    ensures n < 100 ==> |Field(n)| == 2
  {
    if n < 10 {
      PadStart2Value(n);
    } else {
      NatToStringRoundTrip(n);
      var s := NatToString(n);
      assert s == NatToString(n / 10) + [DigitChar(n % 10)];
      if n < 100 {
        assert s == NatToString(n / 10) + [DigitChar(n % 10)];
      }
    }
  }

  /** For a non-negative input the fields are the hours, the minutes below 60 and the seconds below 60. */
  lemma ClockFieldsOfNat(seconds: nat)
    ensures var h: nat := seconds / 3600;
            var m: nat := (seconds % 3600) / 60;
            var s: nat := seconds % 60;
            ClockFields(seconds) == [Field(h), Field(m), Field(s)]
            && m < 60 && s < 60 && 3600 * h + 60 * m + s == seconds
  {
    assert JsRem(seconds, 3600) == seconds % 3600;
    assert JsRem(seconds, 60) == seconds % 60;
  }

  lemma FieldHasNoColon(n: nat)
    ensures ':' !in Field(n)
  {
    FieldDigits(n);
    var f := Field(n);
    assert forall k :: 0 <= k < |f| ==> IsDigit(f[k]);
  }

  /** For a non-negative input the text splits back into the three fields. */
  lemma TimeSplitsIntoFields(seconds: nat)
    ensures Split(Time(seconds), ':') == ClockFields(seconds)
  {
    ClockFieldsOfNat(seconds);
    var f := ClockFields(seconds);
    FieldHasNoColon(seconds / 3600);
    FieldHasNoColon((seconds % 3600) / 60);
    FieldHasNoColon(seconds % 60);
    assert forall i :: 0 <= i < 3 ==> ':' !in f[i];
    SplitJoin(f, ':');
  }

  /**
   * For a non-negative whole number of seconds, `time` reads back as three
   * digit fields, minutes and seconds in two digits below 60, that add up
   * to the input.
   */
  lemma TimeReadsBack(seconds: nat)
    ensures var parts := Split(Time(seconds), ':');
            |parts| == 3
            && AllDigits(parts[0]) && AllDigits(parts[1]) && AllDigits(parts[2])
            && |parts[1]| == 2 && |parts[2]| == 2
            && DigitsValue(parts[1]) < 60 && DigitsValue(parts[2]) < 60
            && 3600 * DigitsValue(parts[0]) + 60 * DigitsValue(parts[1]) + DigitsValue(parts[2]) == seconds
  {
    TimeSplitsIntoFields(seconds);
    ClockFieldsOfNat(seconds);
    FieldDigits(seconds / 3600);
    FieldDigits((seconds % 3600) / 60);
    FieldDigits(seconds % 60);
  }

  /** `time2` carries exactly the fields `time` shows, each followed by its label. */
  lemma Time2SameFields(seconds: nat)
    ensures var parts := Split(Time(seconds), ':');
            |parts| == 3 && Time2(seconds) == parts[0] + HOURS_LABEL + parts[1] + MINUTES_LABEL + parts[2] + SECONDS_LABEL
  {
    TimeSplitsIntoFields(seconds);
  }

  /** `backupTime2`: the first ten characters of the timestamp's text. */
  function BackupTime2(text: string): (r: string)
    ensures |r| == if |text| < 10 then |text| else 10
    ensures r == text[..|r|]
  {
    Slice(text, 0, 10)
  }

  /** `pickTime2`: characters 11 to 15 of the timestamp's text. */
  function PickTime2(text: string): (r: string)
    ensures |text| >= 16 ==> r == text[11..16]
    ensures |text| <= 11 ==> r == ""
  {
    Slice(text, 11, 16)
  }

  /**
   * On an ISO-style timestamp "YYYY-MM-DD?HH:mm..." the two cut out the
   * date and the hour and minute.
   */
  lemma IsoTimestampParts(date: string, sep: char, hhmm: string, rest: string)
    requires |date| == 10 && |hhmm| == 5
    ensures BackupTime2(date + [sep] + hhmm + rest) == date
    ensures PickTime2(date + [sep] + hhmm + rest) == hhmm
  {
    var text := date + [sep] + hhmm + rest;
    assert text[..10] == date;
    assert text[11..16] == hhmm;
  }
}
