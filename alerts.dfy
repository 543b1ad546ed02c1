/**
  libraries/alerts.py: the message `alert_team` composes for the team when
  an alert arrives. The SMTP session, the sending and the log line are
  outside the model; the sender address and the mailing list are
  parameters.
*/
module Alerts {
  import PyStr

  /** The five kinds of message the if/elif chain distinguishes. */
  datatype Kind = Preliminary | Initial | Retraction | Observer | Test

  function KindOf(alertType: string): Kind {
    if alertType == "PRELIMINARY" then Preliminary
    else if alertType == "INITIAL" then Initial
    else if alertType == "RETRACTION" then Retraction
    else if alertType == "OBSERVER" then Observer
    else Test
  }

  const NewEventBody: string := "Ole! A new GW-event has been detected by LVK. Check queue and results.\n"
  const RetractionBody: string := "The previous alert has been retracted.\n"
  const ObserverBody: string := "A new alert has been detected, but the observer may not be present.\n"
  const TestBody: string := "This is a test of the alert message system.\n"

  /** The text before the event name in the subject. */
  function SubjectPrefix(k: Kind): string {
    match k
    case Preliminary => "Preliminary LVK-GW alert: "
    case Initial => "Initial LVK-GW alert: "
    case Retraction => "Event: "
    case Observer => "Observer not present\n"
    case Test => "Alert Test for event: "
  }

  /** The text after the event name in the subject. */
  function SubjectSuffix(k: Kind): string {
    match k
    case Retraction => " retracted\n"
    case Observer => ""
    case _ => "\n"
  }

  /** The subject line of libraries/alerts.py:36-54; the observer notice
      does not name the event. */
  function Subject(alertType: string, eventName: string): string {
    var k := KindOf(alertType);
    if k == Observer then SubjectPrefix(k) else SubjectPrefix(k) + eventName + SubjectSuffix(k)
  }

  /** The body of libraries/alerts.py:36-54. */
  function Body(alertType: string): string {
    match KindOf(alertType)
    case Preliminary => NewEventBody
    case Initial => NewEventBody
    case Retraction => RetractionBody
    case Observer => ObserverBody
    case Test => TestBody
  }

  /** The subject names the event between a fixed prefix and suffix, so the
      name can be read back, except in the observer notice, whose subject is
      the same for every event. */
  lemma SubjectNamesEvent(alertType: string, eventName: string)
    ensures var k := KindOf(alertType);
            var s := Subject(alertType, eventName);
            if k == Observer then s == Subject(alertType, "")
            else
              && |s| == |SubjectPrefix(k)| + |eventName| + |SubjectSuffix(k)|
              && s[|SubjectPrefix(k)|..|s| - |SubjectSuffix(k)|] == eventName
  {
    var k := KindOf(alertType);
    if k != Observer {
      var s := SubjectPrefix(k) + eventName + SubjectSuffix(k);
      assert s[|SubjectPrefix(k)|..|s| - |SubjectSuffix(k)|] == eventName;
    }
  }

  /** Two subjects are equal exactly when their kinds agree and, except in
      the observer notice, so do the event names. */
  lemma SubjectsDistinct(a: string, m: string, b: string, n: string)
    ensures Subject(a, m) == Subject(b, n) <==>
              KindOf(a) == KindOf(b) && (KindOf(a) == Observer || m == n)
  {
    var sa := Subject(a, m);
    var sb := Subject(b, n);
    SubjectFirstChar(a, m);
    SubjectFirstChar(b, n);
    if KindOf(a) != KindOf(b) {
      assert sa[0] != sb[0];
    } else if KindOf(a) != Observer && sa == sb {
      SubjectNamesEvent(a, m);
      SubjectNamesEvent(b, n);
    }
  }

  /** The subject opens with the initial of its kind. */
  lemma SubjectFirstChar(alertType: string, eventName: string)
    ensures var s := Subject(alertType, eventName);
            |s| > 0 && s[0] == match KindOf(alertType)
                               case Preliminary => 'P'
                               case Initial => 'I'
                               case Retraction => 'E'
                               case Observer => 'O'
                               case Test => 'A'
  {
    var k := KindOf(alertType);
    var p := SubjectPrefix(k);
    assert p[0] == match k
                   case Preliminary => 'P'
                   case Initial => 'I'
                   case Retraction => 'E'
                   case Observer => 'O'
                   case Test => 'A';
  }

  /** Every subject and every body ends with a newline. */
  lemma EndsWithNewline(alertType: string, eventName: string)
    ensures var s := Subject(alertType, eventName);
            |s| > 0 && s[|s| - 1] == '\n'
    ensures var b := Body(alertType);
            |b| > 0 && b[|b| - 1] == '\n'
  {
    var k := KindOf(alertType);
    var p := SubjectPrefix(k);
    assert k == Observer ==> p[|p| - 1] == '\n';
    var x := SubjectSuffix(k);
    assert k != Observer ==> x[|x| - 1] == '\n';
    var b := Body(alertType);
    assert b[|b| - 1] == '\n';
  }

  /** The preliminary and the initial notice differ only in the subject:
      both carry the new-event body, which no other kind uses. */
  lemma NewEventBodyShared(alertType: string)
    ensures Body(alertType) == NewEventBody <==> alertType == "PRELIMINARY" || alertType == "INITIAL"
  {
    assert |NewEventBody| == 71 && |RetractionBody| == 39 && |ObserverBody| == 68 && |TestBody| == 44;
  }

  /** The MIME message of `alert_team`: its headers and its attached text
      parts. */
  class Message {
    var headers: map<string, string>
    var parts: seq<string>

    constructor ()
      ensures headers == map[] && parts == []
    {
      headers := map[];
      parts := [];
    }

    /** `msg[key] = value` */
    method SetHeader(key: string, value: string)
      modifies this
      ensures headers == old(headers)[key := value] && parts == old(parts)
    {
      headers := headers[key := value];
    }

    /** `msg.attach(MIMEText(body, 'plain'))` */
    method Attach(body: string)
      modifies this
      ensures parts == old(parts) + [body] && headers == old(headers)
    {
      parts := parts + [body];
    }
  }

  /** libraries/alerts.py:31-57: the message is from the account, to the
      mailing list joined by ", ", with the subject and the one body of the
      alert's kind. */
  method ComposeAlert(alertType: string, eventName: string, email: string, mailingList: seq<string>)
    returns (msg: Message)
    ensures fresh(msg)
    ensures msg.headers == map["From" := email, "To" := PyStr.Join(", ", mailingList),
                               "Subject" := Subject(alertType, eventName)]
    ensures msg.parts == [Body(alertType)]
  {
    msg := new Message();
    msg.SetHeader("From", email);
    msg.SetHeader("To", PyStr.Join(", ", mailingList));
    var subject, body;
    if alertType == "PRELIMINARY" {
      subject := "Preliminary LVK-GW alert: " + eventName + "\n";
      body := NewEventBody;
    } else if alertType == "INITIAL" {
      subject := "Initial LVK-GW alert: " + eventName + "\n";
      body := NewEventBody;
    } else if alertType == "RETRACTION" {
      subject := "Event: " + eventName + " retracted\n";
      body := RetractionBody;
    } else if alertType == "OBSERVER" {
      subject := "Observer not present\n";
      body := ObserverBody;
    } else {
      subject := "Alert Test for event: " + eventName + "\n";
      body := TestBody;
    }
    msg.SetHeader("Subject", subject);
    msg.Attach(body);
  }
}
