/**
 * The cooking-time label of the recipe view: minutes under an hour as
 * "N min", longer times as hours and leftover minutes.
 */
module RecipeDisplay {
  import opened Wrappers
  import opened Text

  /** `formatTime(minutes)`. */
  function FormatTime(minutes: int): string {
    if minutes < 60 then IntToString(minutes) + " min"
    else
      var hours := minutes / 60;
      var mins := minutes % 60;
      if mins > 0 then IntToString(hours) + "h " + IntToString(mins) + "m" else IntToString(hours) + "h"
  }

  /** `s.endsWith(p)`. */
  predicate EndsWith(s: string, p: string) {
    |p| <= |s| && s[|s| - |p|..] == p
  }

  /**
   * Reads a label back: "N min", "Hh" or "Hh Mm" with integer N, H and M;
   * `None` for any other text.
   */
  function MinutesOf(text: string): Option<int> {
    if EndsWith(text, " min") then ParseInt(text[..|text| - 4])
    else
      match SplitOnce(text, "h")
      case (_, None) => None
      case (hoursText, Some(rest)) =>
        match ParseInt(hoursText)
        case None => None
        case Some(hours) =>
          if rest == [] then Some(hours * 60)
          else if |rest| >= 2 && rest[0] == ' ' && rest[|rest| - 1] == 'm' then
            match ParseInt(rest[1..|rest| - 1])
            case None => None
            case Some(mins) => Some(hours * 60 + mins)
          else None
  }

  /**
   * The split into hours and minutes is exact: for an hour or more,
   * hours·60 + mins is the time and 0 <= mins < 60; the minutes part is
   * shown only when it is non-zero.
   */
  lemma FormatTimeParts(minutes: int)
    ensures minutes < 60 ==> FormatTime(minutes) == IntToString(minutes) + " min"
    ensures minutes >= 60 ==>
              var hours, mins := minutes / 60, minutes % 60;
              && hours >= 1 && hours * 60 + mins == minutes && 0 <= mins < 60
              && (mins > 0 ==> FormatTime(minutes) == IntToString(hours) + "h " + IntToString(mins) + "m")
              && (mins == 0 ==> FormatTime(minutes) == IntToString(hours) + "h")
  {
  }

  /** The label of a whole number of hours (60 or more) has no minutes part. */
  lemma WholeHours(hours: int)
    requires hours >= 1
    ensures FormatTime(hours * 60) == IntToString(hours) + "h"
  {
  }

  /** "N min" reads back as N. */
  lemma ReadMinutesLabel(n: int)
    ensures MinutesOf(IntToString(n) + " min") == Some(n)
  {
    var text := IntToString(n) + " min";
    assert text[|text| - 4..] == " min";
    assert text[..|text| - 4] == IntToString(n);
    ParseIntToString(n);
  }

  /** "Hh" reads back as H hours. */
  lemma ReadHoursLabel(hours: int)
    ensures MinutesOf(IntToString(hours) + "h") == Some(hours * 60)
  {
    var hoursText := IntToString(hours);
    var text := hoursText + "h";
    if 'h' in hoursText {
      IntToStringChars(hours, 'h');
    }
    assert text == hoursText + "h" + [];
    SplitOnceFresh(hoursText, "h", []);
    ParseIntToString(hours);
  }

  /** "Hh Mm" reads back as H hours and M minutes, for M >= 0. */
  lemma ReadHoursMinutesLabel(hours: int, mins: nat)
    ensures MinutesOf(IntToString(hours) + "h " + IntToString(mins) + "m") == Some(hours * 60 + mins)
  {
    var hoursText, minsText := IntToString(hours), IntToString(mins);
    var rest := " " + minsText + "m";
    var text := hoursText + "h " + minsText + "m";
    HoursMinutesText(hoursText, minsText);
    assert !EndsWith(text, " min") by {
      assert IsDigit(text[|text| - 2]);
    }
    assert SplitOnce(text, "h") == (hoursText, Some(rest)) by {
      if 'h' in hoursText {
        IntToStringChars(hours, 'h');
      }
      SplitOnceFresh(hoursText, "h", rest);
    }
    assert ParseInt(hoursText) == Some(hours) by {
      ParseIntToString(hours);
    }
    assert ParseInt(rest[1..|rest| - 1]) == Some(mins) by {
      ParseIntToString(mins);
    }
  }

  /** How "Hh Mm" is laid out around the 'h'. */
  lemma HoursMinutesText(hoursText: string, minsText: string)
    requires minsText != []
    ensures var rest, text := " " + minsText + "m", hoursText + "h " + minsText + "m";
            && text == hoursText + "h" + rest
            && |rest| >= 2 && rest[0] == ' ' && rest[|rest| - 1] == 'm' && rest[1..|rest| - 1] == minsText
            && text[|text| - 2] == minsText[|minsText| - 1]
  {
  }

  /** Every label reads back as the time it shows. */
  lemma FormatTimeRoundTrip(minutes: int)
    ensures MinutesOf(FormatTime(minutes)) == Some(minutes)
  {
    if minutes < 60 {
      ReadMinutesLabel(minutes);
    } else if minutes % 60 > 0 {
      ReadHoursMinutesLabel(minutes / 60, minutes % 60);
    } else {
      ReadHoursLabel(minutes / 60);
    }
  }
}
