/** Alert notifications (lib/notifications.ts): the text of an alert
    message in English or French, the choice of channels for a user, and
    the mock service whose sends always succeed.  The alert's time is
    given already written in the locale's format. */
module Notifications {
  import opened Wrappers
  import opened Text

  datatype Language = En | Fr

  datatype Labels = Labels(title: string, pond: string, parameter: string, value: string,
                           status: string, time: string, action: string)

  /** `messages[language]`. */
  function LabelsFor(language: Language): Labels {
    match language
    case En => Labels("🚨 OCEA Alert", "Pond", "Parameter", "Value", "Status", "Time",
                      "Please check your pond immediately.")
    case Fr => Labels("🚨 Alerte OCEA", "Bassin", "Paramètre", "Valeur", "Statut", "Heure",
                      "Veuillez vérifier votre bassin immédiatement.")
  }

  /** The fields of an alert the message shows. */
  datatype AlertFields = AlertFields(pondName: string, parameter: string, message: string, severity: string,
                                     timeText: string)

  /** `toUpperCase` on one character, for the ASCII letters. */
  function UpperChar(c: char): (r: char)
    ensures 'a' <= c <= 'z' ==> r as int == c as int - 32
    ensures !('a' <= c <= 'z') ==> r == c
  {
    if 'a' <= c <= 'z' then (c as int - 32) as char else c
  }

  function Upper(s: string): (r: string)
    ensures |r| == |s|
    ensures forall i :: 0 <= i < |s| ==> r[i] == UpperChar(s[i])
  {
    seq(|s|, i requires 0 <= i < |s| => UpperChar(s[i]))
  }

  /** The lines of `formatAlertMessage`'s template, in their fixed order:
      the title, a blank line, the pond, parameter, value, status and time
      lines, a blank line and the call to act. */
  function MessageLines(a: AlertFields, language: Language): (r: seq<string>)
    ensures |r| == 9
  {
    var m := LabelsFor(language);
    [m.title, "", m.pond + ": " + a.pondName, m.parameter + ": " + a.parameter, m.value + ": " + a.message,
     m.status + ": " + Upper(a.severity), m.time + ": " + a.timeText, "", m.action]
  }

  /** `formatAlertMessage`: the template's lines joined by line breaks. */
  function FormatAlertMessage(a: AlertFields, language: Language): string {
    Join(MessageLines(a, language), '\n')
  }

  predicate OneLine(s: string) { '\n' !in s }

  /** When no field holds a line break, splitting the message at its line
      breaks gives back exactly its nine lines: the pond name, parameter,
      message and upper-cased severity each stand on their own line,
      after their label, in this order. */
  lemma MessageSplitsIntoLines(a: AlertFields, language: Language)
    requires OneLine(a.pondName) && OneLine(a.parameter) && OneLine(a.message)
    requires OneLine(a.severity) && OneLine(a.timeText)
    ensures Split(FormatAlertMessage(a, language), '\n') == MessageLines(a, language)
  {
    var m := LabelsFor(language);
    LabelsOneLine(language);
    UpperOneLine(a.severity);
    FieldLine(m.pond, a.pondName);
    FieldLine(m.parameter, a.parameter);
    FieldLine(m.value, a.message);
    FieldLine(m.status, Upper(a.severity));
    FieldLine(m.time, a.timeText);
    var lines := MessageLines(a, language);
    assert forall k :: 0 <= k < 9 ==> OneLine(lines[k]);
    SplitJoin(lines, '\n');
  }

  /** No label holds a line break. */
  lemma LabelsOneLine(language: Language)
    ensures var m := LabelsFor(language);
      OneLine(m.title) && OneLine(m.pond) && OneLine(m.parameter) && OneLine(m.value)
      && OneLine(m.status) && OneLine(m.time) && OneLine(m.action)
  {
    match language
    case En => EnglishLabelsOneLine();
    case Fr => FrenchLabelsOneLine(); FrenchActionOneLine();
  }

  lemma EnglishLabelsOneLine()
    ensures OneLine("🚨 OCEA Alert") && OneLine("Pond") && OneLine("Parameter") && OneLine("Value")
    ensures OneLine("Status") && OneLine("Time") && OneLine("Please check your pond immediately.")
  {
    assert OneLine("🚨 OCEA Alert") && OneLine("Pond") && OneLine("Parameter") && OneLine("Value");
    assert OneLine("Status") && OneLine("Time");
  }

  lemma FrenchLabelsOneLine()
    ensures OneLine("🚨 Alerte OCEA") && OneLine("Bassin") && OneLine("Paramètre") && OneLine("Valeur")
    ensures OneLine("Statut") && OneLine("Heure")
  {
    assert OneLine("🚨 Alerte OCEA") && OneLine("Bassin") && OneLine("Paramètre") && OneLine("Valeur");
  }

  lemma FrenchActionOneLine()
    ensures OneLine("Veuillez vérifier votre bassin immédiatement.")
  {
    var s := "Veuillez vérifier votre bassin immédiatement.";
    assert |s| == 45;
    forall i | 0 <= i < 45 ensures s[i] != '\n' {
      if i < 23 {
        assert s[i] == "Veuillez vérifier votre"[i];
      } else {
        assert s[i] == " bassin immédiatement."[i - 23];
      }
    }
  }

  lemma UpperOneLine(s: string)
    requires OneLine(s)
    ensures OneLine(Upper(s))
  {
    forall i | 0 <= i < |s| ensures Upper(s)[i] != '\n' {
      assert s[i] in s;
    }
  }

  /** A label, its colon and a one-line field make one line. */
  lemma FieldLine(name: string, field: string)
    requires OneLine(name) && OneLine(field)
    ensures OneLine(name + ": " + field)
  {
  }

  // ---------------------------------------------------------------- sending

  datatype Preferences = Preferences(sms: bool, whatsapp: bool, email: bool)

  datatype User = User(language: Language, phone: Option<string>, preferences: Preferences)

  datatype Send = Sms(to: string, message: string) | WhatsApp(to: string, message: string)

  /** A phone number that is present and not empty. */
  predicate HasPhone(u: User) { u.phone.Some? && u.phone.value != "" }

  /** `MockNotificationService`: every send resolves to true. */
  class MockNotificationService {
    constructor() {}

    method SendSms(to: string, message: string) returns (ok: bool)
      ensures ok
    {
      ok := true;
    }

    method SendWhatsApp(to: string, message: string) returns (ok: bool)
      ensures ok
    {
      ok := true;
    }
  }

  /** The sends `sendAlertNotifications` starts: the SMS when the user
      wants SMS and has a phone, then the WhatsApp message under the same
      condition for WhatsApp; never an email.  Every send goes to the
      user's phone with the message in the user's language. */
  function Planned(a: AlertFields, u: User): (sends: seq<Send>)
    ensures |sends| <= 2
    ensures forall s :: s in sends ==>
      HasPhone(u) && s.to == u.phone.value && s.message == FormatAlertMessage(a, u.language)
      && (s.Sms? ==> u.preferences.sms) && (s.WhatsApp? ==> u.preferences.whatsapp)
    ensures u.preferences.sms && HasPhone(u) ==> Sms(u.phone.value, FormatAlertMessage(a, u.language)) in sends
    ensures u.preferences.whatsapp && HasPhone(u) ==>
      WhatsApp(u.phone.value, FormatAlertMessage(a, u.language)) in sends
    ensures |sends| == 2 ==> sends[0].Sms? && sends[1].WhatsApp?
  {
    if !HasPhone(u) then []
    else
      var message := FormatAlertMessage(a, u.language);
      var sms: seq<Send> := if u.preferences.sms then [Sms(u.phone.value, message)] else [];
      var whatsapp: seq<Send> := if u.preferences.whatsapp then [WhatsApp(u.phone.value, message)] else [];
      sms + whatsapp
  }

  /** `sendAlertNotifications`: each send is started on the service and
      pushed onto the list that is then awaited; the sends are returned. */
  method SendAlertNotifications(a: AlertFields, u: User, service: MockNotificationService)
    returns (sends: seq<Send>)
    ensures sends == Planned(a, u)
  {
    var message := FormatAlertMessage(a, u.language);
    sends := [];
    if u.preferences.sms && HasPhone(u) {
      var _ := service.SendSms(u.phone.value, message);
      sends := sends + [Sms(u.phone.value, message)];
    }
    if u.preferences.whatsapp && HasPhone(u) {
      var _ := service.SendWhatsApp(u.phone.value, message);
      sends := sends + [WhatsApp(u.phone.value, message)];
    }
  }

  /** The email preference changes nothing that is sent. */
  lemma EmailPreferenceIgnored(a: AlertFields, u: User, email: bool)
    ensures Planned(a, u) == Planned(a, u.(preferences := u.preferences.(email := email)))
  {
  }
}
