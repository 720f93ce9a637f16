/** The two mails the booking handler composes: the notice to the group's
    booking mailbox (an HTML and a plain-text body) and the confirmation to
    the submitter. Bodies are modelled as the facts and sections they show,
    in order; markup, styling and blank lines are not modelled. */
module BookingMail {
  import opened Json
  import opened JsStrings
  import opened BookingRequest

  /** What the handler reads from its surroundings: two `process.env` settings
      and the locale library's date and time formatting, which is left abstract. */
  datatype Env = Env(
    emailUser: Option<string>,     // process.env.EMAIL_USER
    bookingEmail: Option<string>,  // process.env.BOOKING_EMAIL
    longDate: JsonValue -> string, // new Date(v).toLocaleDateString("en-US", long weekday, month, day, year)
    shortTime: string -> string)   // new Date(s).toLocaleTimeString("en-US", 12-hour clock, 2-digit minutes)

  /** An environment variable as a JavaScript value: unset is `undefined`. */
  function EnvValue(o: Option<string>): JsonValue
  {
    match o
    case None => Missing
    case Some(s) => Str(s)
  }

  const DefaultBookingEmail: string := "your-booking-email@example.com"

  /** `process.env.BOOKING_EMAIL || "your-booking-email@example.com"`. */
  function OrganizerAddress(env: Env): (a: string)
    ensures a != ""
    ensures Truthy(EnvValue(env.bookingEmail)) ==> a == env.bookingEmail.value
    ensures !Truthy(EnvValue(env.bookingEmail)) ==> a == DefaultBookingEmail
  {
    if env.bookingEmail.Some? && env.bookingEmail.value != "" then env.bookingEmail.value
    else DefaultBookingEmail
  }

  /** The long calendar date shown in both mails. */
  function FormattedDate(sub: Submission, env: Env): string
  {
    env.longDate(sub.eventDate)
  }

  /** The time of day shown in the notice, parsed on a fixed day. */
  function FormattedTime(sub: Submission, env: Env): string
  {
    env.shortTime("2000-01-01 " + Text(sub.eventTime))
  }

  /** `eventType.charAt(0).toUpperCase() + eventType.slice(1).replace("-", " ")`.
      What it shows, character by character, is `EventTypeDisplayChars`. */
  function EventTypeDisplay(s: string): (r: string)
    ensures |r| == |s|
    ensures s != [] ==> r[0] == UpperAscii(s[0])
  {
    if s == [] then [] else [UpperAscii(s[0])] + ReplaceFirst(s[1..], '-', ' ')
  }

  /** The displayed event type keeps the length, upper-cases the first
      character, and of the rest turns only the first `-` into a space. */
  lemma EventTypeDisplayChars(s: string)
    ensures |EventTypeDisplay(s)| == |s|
    ensures s != [] ==> EventTypeDisplay(s)[0] == UpperAscii(s[0])
    ensures forall j :: 1 <= j < |s| ==>
              EventTypeDisplay(s)[j] == (if j == 1 + IndexOf(s[1..], '-') then ' ' else s[j])
  {
    if s != [] {
      var t := ReplaceFirst(s[1..], '-', ' ');
      assert EventTypeDisplay(s) == [UpperAscii(s[0])] + t;
      ReplaceFirstPointwise(s[1..], '-', ' ');
      forall j | 1 <= j < |s|
        ensures EventTypeDisplay(s)[j] == (if j == 1 + IndexOf(s[1..], '-') then ' ' else s[j])
      {
        assert EventTypeDisplay(s)[j] == t[j - 1];
        assert s[1..][j - 1] == s[j];
      }
    }
  }

  /** The display of a value with no hyphen after its first character only
      upper-cases that character. */
  lemma NoHyphenDisplay(s: string)
    requires s != [] && '-' !in s[1..]
    ensures EventTypeDisplay(s) == [UpperAscii(s[0])] + s[1..]
  {
  }

  /** The display of `a-b`, with no hyphen in `a`: the hyphen becomes a space. */
  lemma HyphenatedDisplay(a: string, b: string)
    requires a != [] && '-' !in a
    ensures EventTypeDisplay(a + "-" + b) == [UpperAscii(a[0])] + a[1..] + " " + b
  {
    var s := a + "-" + b;
    assert s[0] == a[0];
    assert s[1..] == a[1..] + ['-'] + b;
    ReplaceFirstAfter(a[1..], '-', ' ', b);
  }

  /** One fact a notice shows: what it is about, and what it says. */
  datatype Fact = Fact(topic: string, detail: string)

  /** The parts of an HTML mail body. */
  datatype HtmlBlock =
    | Banner(text: string)                                   // the page title
    | Heading(text: string)                                  // a section title
    | Row(name: string, value: string, href: Option<string>) // a table row, its value a link when href is present
    | Panel(title: string, text: string)                     // a titled, boxed paragraph
    | Callout(name: string, text: string)                   // a highlighted, labelled remark
    | Para(text: string)                                     // a plain paragraph
    | SubmittedFooter                                        // "submitted on" the server's clock

  /** The lines of a plain-text mail body (blank lines are layout and not kept). */
  datatype TextLine =
    | Line(text: string)                   // a line of its own
    | Pair(name: string, value: string)   // "name: value"
    | Titled(title: string, text: string)  // "title:" and the text on the next line
    | SubmittedStamp                       // "Submitted: " the server's clock

  function HtmlFact(b: HtmlBlock): Option<Fact>
  {
    match b
    case Row(name, value, _) => Some(Fact(name, value))
    case Panel(title, text) => Some(Fact(title, text))
    case Callout(name, text) => Some(Fact(name, text))
    case _ => None
  }

  function TextFact(l: TextLine): Option<Fact>
  {
    match l
    case Pair(name, value) => Some(Fact(name, value))
    case Titled(title, text) => Some(Fact(title, text))
    case _ => None
  }

  /** The facts of an HTML body, part by part (`None` for titles and footers). */
  function HtmlFacts(doc: seq<HtmlBlock>): seq<Option<Fact>>
  {
    seq(|doc|, i requires 0 <= i < |doc| => HtmlFact(doc[i]))
  }

  /** The facts of a text body, line by line (`None` for titles and the stamp). */
  function TextFacts(doc: seq<TextLine>): seq<Option<Fact>>
  {
    seq(|doc|, i requires 0 <= i < |doc| => TextFact(doc[i]))
  }

  /** Some part shows a fact about `topic`. */
  predicate HasTopic(facts: seq<Option<Fact>>, topic: string)
  {
    exists i :: 0 <= i < |facts| && facts[i].Some? && facts[i].value.topic == topic
  }

  const TermsNotice: string := "Client has read and agreed to the performance agreement terms."

  /** A table row shown only when the value is truthy (`${v ? `<tr>...` : ""}`). */
  function OptionalRow(name: string, v: JsonValue): seq<HtmlBlock>
  {
    if Truthy(v) then [Row(name, Text(v), None)] else []
  }

  /** A text line shown only when the value is truthy. */
  function OptionalPair(name: string, v: JsonValue): seq<TextLine>
  {
    if Truthy(v) then [Pair(name, Text(v))] else []
  }

  /** The contact and event rows every notice starts with. */
  function NoticeHtmlHead(sub: Submission, date: string, time: string, shownType: string): seq<HtmlBlock>
  {
    [ Banner("\U{1F3B5} New Gospel Artist Booking Request"),
      Heading("Contact Information"),
      Row("Name", Text(sub.firstName) + " " + Text(sub.lastName), None),
      Row("Email", Text(sub.email), Some("mailto:" + Text(sub.email))),
      Row("Phone", Text(sub.phone), Some("tel:" + Text(sub.phone))),
      Row("Organization", Text(sub.organization), None),
      Heading("Event Details"),
      Row("Date", date, None),
      Row("Time", time, None),
      Row("Venue", Text(sub.venue), None),
      Row("Event Type", shownType, None) ]
  }

  /** The special requests panel, shown only when the value is truthy. */
  function RequestsPanel(v: JsonValue): seq<HtmlBlock>
  {
    if Truthy(v) then [Panel("Special Requests", Text(v))] else []
  }

  const NoticeHtmlTail: seq<HtmlBlock> := [Callout("Terms Agreement", TermsNotice), SubmittedFooter]

  /** The HTML body of the notice to the booking mailbox. */
  function NoticeHtml(sub: Submission, date: string, time: string, shownType: string): seq<HtmlBlock>
  {
    NoticeHtmlHead(sub, date, time, shownType)
    + OptionalRow("Expected Attendance", sub.expectedAttendance)
    + OptionalRow("Duration", sub.performanceDuration)
    + RequestsPanel(sub.specialRequests)
    + NoticeHtmlTail
  }

  /** The contact and event lines every text notice starts with. */
  function NoticeTextHead(sub: Submission, date: string, time: string, shownType: string): seq<TextLine>
  {
    [ Line("NEW GOSPEL ARTIST BOOKING REQUEST"),
      Line("Contact Information:"),
      Pair("Name", Text(sub.firstName) + " " + Text(sub.lastName)),
      Pair("Email", Text(sub.email)),
      Pair("Phone", Text(sub.phone)),
      Pair("Organization", Text(sub.organization)),
      Line("Event Details:"),
      Pair("Date", date),
      Pair("Time", time),
      Pair("Venue", Text(sub.venue)),
      Pair("Event Type", shownType) ]
  }

  /** "Special Requests:" and the text on the next line, only when truthy. */
  function RequestsTitled(v: JsonValue): seq<TextLine>
  {
    if Truthy(v) then [Titled("Special Requests", Text(v))] else []
  }

  const NoticeTextTail: seq<TextLine> := [Pair("Terms Agreement", TermsNotice), SubmittedStamp]

  /** The plain-text body of the notice to the booking mailbox. */
  function NoticeText(sub: Submission, date: string, time: string, shownType: string): seq<TextLine>
  {
    NoticeTextHead(sub, date, time, shownType)
    + OptionalPair("Expected Attendance", sub.expectedAttendance)
    + OptionalPair("Duration", sub.performanceDuration)
    + RequestsTitled(sub.specialRequests)
    + NoticeTextTail
  }

  lemma HtmlFactsAppend(a: seq<HtmlBlock>, b: seq<HtmlBlock>)
    ensures HtmlFacts(a + b) == HtmlFacts(a) + HtmlFacts(b)
  {
    assert forall i :: 0 <= i < |a + b| ==> HtmlFacts(a + b)[i] == (HtmlFacts(a) + HtmlFacts(b))[i];
  }

  lemma TextFactsAppend(a: seq<TextLine>, b: seq<TextLine>)
    ensures TextFacts(a + b) == TextFacts(a) + TextFacts(b)
  {
    assert forall i :: 0 <= i < |a + b| ==> TextFacts(a + b)[i] == (TextFacts(a) + TextFacts(b))[i];
  }

  /** The HTML and the text body of the notice show the same facts, in the same order. */
  lemma NoticeBodiesAgree(sub: Submission, date: string, time: string, shownType: string)
    ensures HtmlFacts(NoticeHtml(sub, date, time, shownType)) == TextFacts(NoticeText(sub, date, time, shownType))
  {
    var h0, t0 := NoticeHtmlHead(sub, date, time, shownType), NoticeTextHead(sub, date, time, shownType);
    var h1, t1 := OptionalRow("Expected Attendance", sub.expectedAttendance), OptionalPair("Expected Attendance", sub.expectedAttendance);
    var h2, t2 := OptionalRow("Duration", sub.performanceDuration), OptionalPair("Duration", sub.performanceDuration);
    var h3, t3 := RequestsPanel(sub.specialRequests), RequestsTitled(sub.specialRequests);
    assert HtmlFacts(h0) == TextFacts(t0) by {
      assert forall i :: 0 <= i < |h0| ==> HtmlFact(h0[i]) == TextFact(t0[i]);
    }
    assert HtmlFacts(h1) == TextFacts(t1);
    assert HtmlFacts(h2) == TextFacts(t2);
    assert HtmlFacts(h3) == TextFacts(t3);
    assert HtmlFacts(NoticeHtmlTail) == TextFacts(NoticeTextTail);
    HtmlFactsAppend(h0, h1);
    HtmlFactsAppend(h0 + h1, h2);
    HtmlFactsAppend(h0 + h1 + h2, h3);
    HtmlFactsAppend(h0 + h1 + h2 + h3, NoticeHtmlTail);
    TextFactsAppend(t0, t1);
    TextFactsAppend(t0 + t1, t2);
    TextFactsAppend(t0 + t1 + t2, t3);
    TextFactsAppend(t0 + t1 + t2 + t3, NoticeTextTail);
  }

  /** Each optional section appears in the notice exactly when its value is
      truthy, and then shows that value, which is never blank. */
  lemma OptionalSectionsShown(sub: Submission, date: string, time: string, shownType: string)
    ensures var facts := HtmlFacts(NoticeHtml(sub, date, time, shownType));
      && (HasTopic(facts, "Expected Attendance") <==> Truthy(sub.expectedAttendance))
      && (HasTopic(facts, "Duration") <==> Truthy(sub.performanceDuration))
      && (HasTopic(facts, "Special Requests") <==> Truthy(sub.specialRequests))
      && (Truthy(sub.expectedAttendance) ==> Some(Fact("Expected Attendance", Text(sub.expectedAttendance))) in facts)
      && (Truthy(sub.performanceDuration) ==> Some(Fact("Duration", Text(sub.performanceDuration))) in facts)
      && (Truthy(sub.specialRequests) ==> Some(Fact("Special Requests", Text(sub.specialRequests))) in facts)
      && (Truthy(sub.expectedAttendance) ==> Text(sub.expectedAttendance) != "")
      && (Truthy(sub.performanceDuration) ==> Text(sub.performanceDuration) != "")
      && (Truthy(sub.specialRequests) ==> Text(sub.specialRequests) != "")
  {
    var h := NoticeHtml(sub, date, time, shownType);
    var facts := HtmlFacts(h);
    var n := 11 + |OptionalRow("Expected Attendance", sub.expectedAttendance)|;
    var m := n + |OptionalRow("Duration", sub.performanceDuration)|;
    if Truthy(sub.expectedAttendance) {
      TextNonEmpty(sub.expectedAttendance);
      assert facts[11] == Some(Fact("Expected Attendance", Text(sub.expectedAttendance)));
    }
    if Truthy(sub.performanceDuration) {
      TextNonEmpty(sub.performanceDuration);
      assert facts[n] == Some(Fact("Duration", Text(sub.performanceDuration)));
    }
    if Truthy(sub.specialRequests) {
      TextNonEmpty(sub.specialRequests);
      assert facts[m] == Some(Fact("Special Requests", Text(sub.specialRequests)));
    }
  }

  /** A mail handed to the transport (`transporter.sendMail(options)`); an
      absent property is `Missing`. */
  datatype MailOptions = MailOptions(
    from: JsonValue,
    to: JsonValue,
    replyTo: JsonValue,
    subject: string,
    text: Option<seq<TextLine>>,
    html: seq<HtmlBlock>)

  const SubjectPrefix: string := "\U{1F3B5} New Booking Request: "

  /** The notice to the booking mailbox. */
  function NoticeMail(sub: Submission, env: Env, eventType: string): (m: MailOptions)
    ensures m.to == Str(OrganizerAddress(env))
    ensures m.replyTo == sub.email
    ensures m.text.Some?
    ensures HtmlFacts(m.html) == TextFacts(m.text.value)
  {
    var date := FormattedDate(sub, env);
    var time := FormattedTime(sub, env);
    var shownType := EventTypeDisplay(eventType);
    NoticeBodiesAgree(sub, date, time, shownType);
    MailOptions(
      Str("\"" + Text(sub.firstName) + " " + Text(sub.lastName) + "\" <" + Text(EnvValue(env.emailUser)) + ">"),
      Str(OrganizerAddress(env)),
      sub.email,
      SubjectPrefix + Text(sub.organization) + " - " + date,
      Some(NoticeText(sub, date, time, shownType)),
      NoticeHtml(sub, date, time, shownType))
  }

  /** A subject built from the prefix, `org`, " - " and `date` contains both. */
  lemma SubjectNamesBoth(org: string, date: string)
    ensures Includes(SubjectPrefix + org + " - " + date, org)
    ensures Includes(SubjectPrefix + org + " - " + date, date)
  {
    var subject := SubjectPrefix + org + " - " + date;
    assert subject[|SubjectPrefix|..|SubjectPrefix| + |org|] == org;
    assert OccursAt(subject, org, |SubjectPrefix|);
    var k := |SubjectPrefix| + |org| + 3;
    assert subject[k..k + |date|] == date;
    assert OccursAt(subject, date, k);
  }

  /** The notice's subject names the organization and the formatted date. */
  lemma NoticeSubjectNamesEvent(sub: Submission, env: Env, eventType: string)
    ensures Includes(NoticeMail(sub, env, eventType).subject, Text(sub.organization))
    ensures Includes(NoticeMail(sub, env, eventType).subject, FormattedDate(sub, env))
  {
    SubjectNamesBoth(Text(sub.organization), FormattedDate(sub, env));
  }

  const ConfirmationSubject: string := "Booking Request Received - Gospel Artist"

  const ReceivedPrefix: string := "We have received your booking request for "

  /** The HTML body of the confirmation to the submitter. */
  function ConfirmationHtml(sub: Submission, date: string): seq<HtmlBlock>
  {
    [ Heading("Thank You for Your Booking Request!"),
      Para("Dear " + Text(sub.firstName) + ","),
      Para(ReceivedPrefix + Text(sub.organization) + " on " + date + "."),
      Para("We will review your request and contact you within 24 hours to confirm availability and discuss next steps."),
      Para("If you have any urgent questions, please feel free to reply to this email."),
      Para("Blessings,\nDaughters Of Glorious Jesus Team") ]
  }

  /** The confirmation to the submitter: sent from the mail account itself, to
      the submitter's address, with a fixed subject, no `replyTo` and no text body. */
  function ConfirmationMail(sub: Submission, env: Env): (m: MailOptions)
    ensures m.from == EnvValue(env.emailUser)
    ensures m.to == sub.email
    ensures m.replyTo == Missing
    ensures m.subject == ConfirmationSubject
    ensures m.text == None
  {
    MailOptions(
      EnvValue(env.emailUser),
      sub.email,
      Missing,
      ConfirmationSubject,
      None,
      ConfirmationHtml(sub, FormattedDate(sub, env)))
  }

  /** A paragraph built from the prefix, `org`, " on ", `date` and a full stop
      contains both. */
  lemma ReceivedNamesBoth(org: string, date: string)
    ensures Includes(ReceivedPrefix + org + " on " + date + ".", org)
    ensures Includes(ReceivedPrefix + org + " on " + date + ".", date)
  {
    var p := ReceivedPrefix + org + " on " + date + ".";
    assert p[|ReceivedPrefix|..|ReceivedPrefix| + |org|] == org;
    assert OccursAt(p, org, |ReceivedPrefix|);
    var k := |ReceivedPrefix| + |org| + 4;
    assert p[k..k + |date|] == date;
    assert OccursAt(p, date, k);
  }

  /** The confirmation greets the submitter by first name and has a paragraph
      naming both the organization and the formatted date. */
  lemma ConfirmationNamesEvent(sub: Submission, env: Env)
    ensures var m := ConfirmationMail(sub, env);
      exists i :: 0 <= i < |m.html| && m.html[i].Para? &&
        Includes(m.html[i].text, Text(sub.organization)) && Includes(m.html[i].text, FormattedDate(sub, env))
    ensures var m := ConfirmationMail(sub, env);
      exists i :: 0 <= i < |m.html| && m.html[i].Para? && Includes(m.html[i].text, Text(sub.firstName))
  {
    var m := ConfirmationMail(sub, env);
    var org, date := Text(sub.organization), FormattedDate(sub, env);
    ReceivedNamesBoth(org, date);
    assert m.html[2] == Para(ReceivedPrefix + org + " on " + date + ".");
    var greeting := "Dear " + Text(sub.firstName) + ",";
    assert m.html[1] == Para(greeting);
    assert greeting[5..5 + |Text(sub.firstName)|] == Text(sub.firstName);
    assert OccursAt(greeting, Text(sub.firstName), 5);
  }
}
