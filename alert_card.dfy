/** The alert card (components/alert-card.tsx): the relative age of an
    alert and the colour and badge of its severity.  The card's clock and
    `new Date(timestamp)` are inputs: `now` and the alert's time in
    milliseconds, `None` for a timestamp that does not parse. */
module AlertCard {
  import opened Wrappers
  import opened Text

  const MinuteMs := 60000

  /** The age as the card shows it: a relative text, or the date written
      in the locale's own format (left opaque). */
  datatype Age = Relative(text: string) | LocaleDate(locale: string)

  function Locale(language: string): string {
    if language == "fr" then "fr-FR" else "en-US"
  }

  function MinutesLabel(language: string): string {
    if language == "fr" then "minutes" else "minutes ago"
  }

  /** The hour label, singular only for one hour. */
  function HoursLabel(hours: int, language: string): string {
    if language == "fr" then (if hours == 1 then "heure" else "heures")
    else if hours == 1 then "hour ago" else "hours ago"
  }

  /** `Math.floor((now - date) / 60000)`. */
  function MinutesBetween(now: int, at: int): (m: int)
    ensures m * MinuteMs <= now - at < (m + 1) * MinuteMs
  {
    (now - at) / MinuteMs
  }

  /** `formatTimestamp`: under an hour, the minutes; under a day, the whole
      hours, from 1 to 23; otherwise the date.  A timestamp that does not
      parse fails every comparison and so shows as a date too. */
  function FormatTimestamp(now: int, at: Option<int>, language: string): (r: Age)
    ensures at.None? ==> r == LocaleDate(Locale(language))
    ensures at.Some? && MinutesBetween(now, at.value) < 60 ==>
      r == Relative(IntText(MinutesBetween(now, at.value)) + " " + MinutesLabel(language))
    ensures at.Some? && 60 <= MinutesBetween(now, at.value) < 1440 ==>
      var hours := MinutesBetween(now, at.value) / 60;
      1 <= hours <= 23 && r == Relative(NatText(hours) + " " + HoursLabel(hours, language))
    ensures at.Some? && MinutesBetween(now, at.value) >= 1440 ==> r == LocaleDate(Locale(language))
  {
    if at.None? then LocaleDate(Locale(language))
    else
      var minutes := MinutesBetween(now, at.value);
      if minutes < 60 then Relative(IntText(minutes) + " " + MinutesLabel(language))
      else if minutes < 1440 then
        var hours := minutes / 60;
        Relative(NatText(hours) + " " + HoursLabel(hours, language))
      else LocaleDate(Locale(language))
  }

  /** Within the minute bucket, two ages that differ by whole minutes read
      differently. */
  lemma MinuteAgesDiffer(now: int, a: int, b: int, language: string)
    requires 0 <= MinutesBetween(now, a) < 60 && 0 <= MinutesBetween(now, b) < 60
    requires MinutesBetween(now, a) != MinutesBetween(now, b)
    ensures FormatTimestamp(now, Some(a), language) != FormatTimestamp(now, Some(b), language)
  {
    var ma := MinutesBetween(now, a);
    var mb := MinutesBetween(now, b);
    if FormatTimestamp(now, Some(a), language) == FormatTimestamp(now, Some(b), language) {
      var post := " " + MinutesLabel(language);
      assert "" + IntText(ma) + post == IntText(ma) + " " + MinutesLabel(language);
      assert "" + IntText(mb) + post == IntText(mb) + " " + MinutesLabel(language);
      StripAffixes("", IntText(ma), IntText(mb), " " + MinutesLabel(language));
      NatTextInjective(ma, mb);
    }
  }

  /** The singular hour label is shown for exactly the ages from 60 to 119
      minutes. */
  lemma SingularHour(now: int, at: int, language: string)
    requires 60 <= MinutesBetween(now, at) < 1440
    ensures FormatTimestamp(now, Some(at), language) == Relative("1 " + HoursLabel(1, language))
      <==> MinutesBetween(now, at) < 120
  {
    var hours := MinutesBetween(now, at) / 60;
    if FormatTimestamp(now, Some(at), language) == Relative("1 " + HoursLabel(1, language)) {
      LeadingOne(hours, HoursLabel(hours, language), HoursLabel(1, language));
    }
  }

  /** A number printed before a space reads "1" only for 1. */
  lemma LeadingOne(h: nat, x: string, y: string)
    requires NatText(h) + " " + x == "1 " + y
    ensures h == 1
  {
    var n := NatText(h);
    assert (n + " " + x)[1] == ' ';
    if |n| > 1 {
      assert false;
    }
    assert n == (n + " " + x)[..1] == "1";
    NatTextInjective(h, 1);
  }

  // ---------------------------------------------------------------- severity

  datatype Tone = Red | Yellow

  /** `getSeverityColor` and `getSeverityBadge`: a critical alert is red
      and labelled Critical (Critique in French); any other severity is
      yellow and labelled Warning (Attention). */
  function SeverityBadge(severity: string, language: string): (r: (Tone, string))
    ensures r.0 == Red <==> severity == "critical"
    ensures r.1 == (if severity == "critical" then (if language == "fr" then "Critique" else "Critical")
                    else (if language == "fr" then "Attention" else "Warning"))
  {
    var critical := if language == "fr" then "Critique" else "Critical";
    var warning := if language == "fr" then "Attention" else "Warning";
    if severity == "critical" then (Red, critical) else (Yellow, warning)
  }
}
