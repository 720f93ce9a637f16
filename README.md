# Gospel artist booking form, modelled in Dafny

The application is a one-page booking form for a gospel group. The page
collects a booking request and posts it as JSON to `api/booking`. That
route handler validates the body and then sends two mails in order. The
first is a notice to the group's booking mailbox, with an HTML and a
plain-text body. The second is a confirmation to the person who submitted
the form. The handler answers 200, 400 or 500.

The model has two halves.

**The route handler** (`app/api/booking/route.js`):

- `json.dfy` (module `Json`) models JavaScript's truthiness and template
  interpolation of parsed JSON values.
- `js_strings.dfy` (module `JsStrings`) models the string methods used:
  `replace` with a string pattern, `toUpperCase` and `includes` (`charAt`
  and `slice` are plain indexing and slicing). `IndexOf` is the reference
  for the position `replace` acts on, and each method is stated against
  its reference meaning.
- `booking_request.dfy` (module `BookingRequest`) models destructuring the
  body and the two-stage validation.
- `booking_mail.dfy` (module `BookingMail`) models composing both mails.
  Bodies are ordered lists of the facts and sections they show.
- `booking_route.dfy` (module `BookingRoute`) models the transport and
  the handler.
  - The transport is a `Gateway` object. Its outside behaviour is a
    function of the calls before, and it keeps a log of every call.
  - The handler is a method `Post`. It is proved equal to the pure
    `Handle`, which is built from `Dispatch` and `Deliver`.
- `event_type_cases.dfy` (module `EventTypeCases`) evaluates the event-type
  display on the values the form offers.

**The page** (`app/page.js`):

- `booking_page.dfy` (module `BookingPage`) models the form component.
  - It is a class holding `formData`, `isSubmitting` and `submitMessage`.
  - `HandleChange` and `HandleSubmit` are proved against the pure
    `Changed` and `Submit`.
  - It also covers the submit button's `disabled` condition and the
    green or red styling of the message.

The properties proved include:

- Validation:
  - It rejects for missing fields exactly when some required value is
    falsy.
  - It rejects for the terms exactly when all required values are truthy
    and `agreeTerms` is not.
  - A falsy required value (absent, `""`, `null`, `false` or `0`) wins
    over unchecked terms.
- Event-type display:
  - It keeps the length and upper-cases the first character.
  - Only the first hyphen after that character becomes a space, so
    `church-service` shows as `Church service` and `a-b-c` as `A b-c`.
- The notice:
  - Its HTML and text templates show the same facts in the same order.
  - Each optional section appears exactly when its value is truthy.
  - The subject names the organization and the date.
- The confirmation greets the submitter by first name and names the
  organization and the date.
- The handler:
  - A 400 sends nothing.
  - The confirmation is attempted only after the notice is delivered.
  - The response is 200 exactly when both mails are delivered. A failed
    confirmation still gives a 500, although the notice went out.
- The page:
  - It posts only when `agreeTerms` is truthy, so the server never
    answers it with "Terms agreement is required".
  - While a request is in flight, the button is disabled and the message
    is cleared.
  - Afterwards, `isSubmitting` is false.
  - After a success, the form is reset and the button is disabled.
  - After a failure, the form is kept and the button is enabled.
  - The message is green exactly when the request succeeded.

## Model

| member | source | states |
|---|---|---|
| Json.Truthy | app/api/booking/route.js:38-48 | JavaScript's `!x` negated: `undefined`, `null`, `false`, `0` and `""` are falsy and every other value is truthy |
| Json.Text | app/api/booking/route.js:89 | template interpolation `${x}`: `undefined`, `null`, `true`/`false`, the decimal digits of an integer, or the string itself |
| Json.DigitsRoundTrip | app/api/booking/route.js:157 | the decimal text a number interpolates to (`${expectedAttendance}`) reads back as that number |
| Json.TextNonEmpty | app/api/booking/route.js:104-108 | interpolating any value other than `""` yields a non-empty string, so a truthy optional value never prints as empty |
| JsStrings.IndexOf | app/api/booking/route.js:102 | the position that `replace` acts on is the first occurrence of the character, and -1 exactly when it does not occur |
| JsStrings.IndexOfAt | app/api/booking/route.js:102 | a position holding the character, with none before it, is the first occurrence |
| JsStrings.ReplaceFirst | app/api/booking/route.js:102 | `replace("-", " ")` keeps the length, changes only the first occurrence, and leaves a string without one unchanged |
| JsStrings.ReplaceFirstPointwise | app/api/booking/route.js:102 | after `replace("-", " ")` the position of the first `-` holds a space and every other position is unchanged |
| JsStrings.ReplaceFirstAfter | app/api/booking/route.js:102 | in `x-y` with no `-` in `x`, `replace` turns exactly that hyphen into a space and keeps `y` whole, hyphens included |
| JsStrings.UpperAscii | app/api/booking/route.js:101 | `toUpperCase` maps the i-th lower-case ASCII letter to the i-th entry of the capitals table `A`…`Z`, leaves every other character alone, and never yields a lower-case letter |
| JsStrings.Includes | app/page.js:438 | `includes` holds exactly when the pattern occurs at some position |
| JsStrings.NotIncludedWithoutFirstChar | app/page.js:438 | a pattern whose first character is absent from the string is not included in it |
| BookingRequest.Destructure | app/api/booking/route.js:21-35 | the thirteen named properties of the body, each `undefined` when the key is absent |
| BookingRequest.RequiredOfBody | app/api/booking/route.js:21-35 | each required value of the destructured body is the body's property of that name, or `undefined` when the key is absent |
| BookingRequest.Validate | app/api/booking/route.js:38-60 | "Missing required fields" iff some of the nine required values is falsy; "Terms agreement is required" iff all are truthy and `agreeTerms` is falsy; accepted iff all ten are truthy |
| BookingRequest.FalsyKeyRejected | app/api/booking/route.js:38-53 | a body whose required key is absent or falsy (`""`, `null`, `false`, `0`) is rejected for missing fields whatever its `agreeTerms` |
| BookingRequest.UncheckedTermsRejected | app/api/booking/route.js:55-60 | a body with every required value truthy and `agreeTerms` absent or falsy is rejected with "Terms agreement is required" |
| BookingMail.FormattedDate | app/api/booking/route.js:63-68 | the event date as the locale's long date form of `eventDate` |
| BookingMail.FormattedTime | app/api/booking/route.js:71-77 | the event time as the locale's short time form of `2000-01-01 ${eventTime}` |
| BookingMail.OrganizerAddress | app/api/booking/route.js:170 | the notice goes to `BOOKING_EMAIL` when it is set and non-empty, and otherwise to the placeholder address; it is never empty |
| BookingMail.EventTypeDisplay | app/api/booking/route.js:100-103 | the displayed event type has the same length as `eventType` and starts with its first character upper-cased |
| BookingMail.EventTypeDisplayChars | app/api/booking/route.js:154-156 | character by character, the display is the first character upper-cased, then the rest unchanged except that its first `-` is a space |
| BookingMail.NoHyphenDisplay | app/api/booking/route.js:100-103 | a value with no hyphen after its first character is only capitalised |
| BookingMail.HyphenatedDisplay | app/api/booking/route.js:100-103 | for `a-b` with no hyphen in `a`, the display is `a` capitalised, a space, then `b` unchanged |
| EventTypeCases.ChurchServiceDisplay | app/page.js:277 | the option `church-service` is shown as `Church service` |
| EventTypeCases.PlainEventTypesDisplay | app/page.js:278-283 | the other options start with a lower-case letter and are shown with only that letter capitalised |
| EventTypeCases.SecondHyphenKept | app/api/booking/route.js:102 | only the first hyphen is replaced: `a-b-c` is shown as `A b-c` |
| BookingMail.NoticeHtml | app/api/booking/route.js:80-138 | the notice's HTML body as its headings and rows in order: contact details, event details with the optional rows, the special-requests panel, the terms notice and the submission stamp |
| BookingMail.NoticeText | app/api/booking/route.js:141-165 | the notice's plain-text body as its lines in the same order |
| BookingMail.NoticeBodiesAgree | app/api/booking/route.js:80-165 | the HTML and plain-text templates of the notice show the same facts in the same order, each submitted value whole in its own row or line (for values without markup or line breaks, this is also what a reader sees) |
| BookingMail.OptionalSectionsShown | app/api/booking/route.js:104-125 | in the HTML template, Expected Attendance, Duration and Special Requests each appear exactly when their value is truthy, and then show that value, which is never blank (for values without markup or line breaks, this is also what a reader sees) |
| BookingMail.NoticeMail | app/api/booking/route.js:168-175 | the notice is addressed to the organizer address, replies to the submitter's email, and carries a text body agreeing with its HTML body |
| BookingMail.NoticeSubjectNamesEvent | app/api/booking/route.js:172 | the notice's subject contains the organization and the formatted date |
| BookingMail.ConfirmationHtml | app/api/booking/route.js:187-196 | the confirmation's body: the thanks heading, a greeting with the first name, the organization and formatted date, and the fixed closing paragraphs |
| BookingMail.ConfirmationNamesEvent | app/api/booking/route.js:190-191 | the confirmation's body has a paragraph greeting the submitter by first name, and one naming both the organization and the formatted date |
| BookingMail.ConfirmationMail | app/api/booking/route.js:183-197 | the confirmation comes from `EMAIL_USER`, goes to the submitter's email, has the fixed subject, and has no reply-to and no text body |
| BookingRoute.Gateway.constructor | app/api/booking/route.js:7-15 | a fresh transport has made no calls |
| BookingRoute.Gateway.SendMail | app/api/booking/route.js:178 | a send's outcome is the transport's answer given the earlier calls, and the call is appended to the log |
| BookingRoute.Deliver | app/api/booking/route.js:178-213 | the notice is always attempted first; the confirmation is attempted iff the notice was delivered, and its logged outcome is the transport's answer; 200 with the notice's message id iff both were delivered, and otherwise 500 with the error of the failed send |
| BookingRoute.Dispatch | app/api/booking/route.js:100-103 | an accepted body whose `eventType` is not a string throws while the notice is built, and gets a 500 without any send |
| BookingRoute.Handle | app/api/booking/route.js:17-215 | a body validation rejects gets 400 with that rejection's message and the log is unchanged; an accepted body gets 200 or 500 after at most two sends, appended to the log |
| BookingRoute.Post | app/api/booking/route.js:17-215 | the handler's step-by-step run yields the response and transport log that `Handle` specifies |
| BookingRoute.Notify | app/api/booking/route.js:167-204 | composing and sending both mails does what `Dispatch` specifies |
| BookingRoute.SendInOrder | app/api/booking/route.js:177-213 | the two awaited sends, with the catch, do what `Deliver` specifies |
| BookingRoute.RejectedBodySendsNothing | app/api/booking/route.js:38-53 | a body whose required value is absent, `""`, `null`, `false` or `0` gets 400 "Missing required fields" and no mail is sent |
| BookingRoute.UncheckedTermsSendsNothing | app/api/booking/route.js:55-60 | a body with every required value truthy and falsy `agreeTerms` gets 400 "Terms agreement is required" and no mail is sent |
| BookingRoute.NoticeRefused | app/api/booking/route.js:178-213 | for the two sends, a refused notice is the only call made, nothing is delivered and the 500 carries its error |
| BookingRoute.ConfirmationRefused | app/api/booking/route.js:199-213 | for the two sends, a delivered notice and a refused confirmation give a 500 carrying the confirmation's own error, after two calls with one delivery |
| BookingRoute.BothDelivered | app/api/booking/route.js:178-204 | for the two sends, both delivered in order and the 200 carries the notice's message id |
| BookingRoute.NoticeFailureStops | app/api/booking/route.js:178-213 | when the transport refuses the first send, exactly one send is made, nothing is delivered, and the 500 carries that send's error |
| BookingRoute.ConfirmationFailureStillFails | app/api/booking/route.js:199-213 | when the transport delivers the first send and refuses the second, the response is 500 although exactly one mail was delivered |
| BookingRoute.BothSentSucceeds | app/api/booking/route.js:178-204 | when the transport delivers everything, the notice and then the confirmation are delivered and the 200 carries the notice's message id |
| BookingRoute.DeliverSuccessIffBoth | app/api/booking/route.js:178-213 | for the two sends, success iff both mails were delivered |
| BookingRoute.DispatchSuccessIffBoth | app/api/booking/route.js:62-213 | for an accepted body, success iff both mails were delivered |
| BookingRoute.SuccessIffBothDelivered | app/api/booking/route.js:17-215 | any request is answered 200 iff exactly two mails were delivered during it |
| BookingPage.EmptyForm | app/page.js:16-30 | the initial and reset form has exactly the twelve text fields and `agreeTerms`, every text field `""` and `agreeTerms` false |
| BookingPage.Changed | app/page.js:32-38 | a change sets only the named property, to `checked` for a checkbox and to `value` otherwise; every other property is kept |
| BookingPage.Submit | app/page.js:43-95 | no request and an alert, with the state unchanged, iff `agreeTerms` is falsy; otherwise `formData` is posted while busy with a cleared message; an ok response resets the form and sets the thank-you message; any other outcome keeps the form and sets the error message; it always ends not submitting |
| BookingPage.BookingForm.constructor | app/page.js:16-42 | the component starts with the empty form, not submitting, and no message |
| BookingPage.BookingForm.HandleChange | app/page.js:32-38 | the handler changes `formData` as `Changed` says, and nothing else |
| BookingPage.BookingForm.HandleSubmit | app/page.js:43-95 | the handler's request, alert, in-flight state and final state are those of `Submit` |
| BookingPage.ButtonDisabled | app/page.js:450 | the submit button is disabled when `agreeTerms` is falsy or a request is in flight |
| BookingPage.StyleOf | app/page.js:435-441 | the message box is not rendered for an empty message, is green when the message includes "Thank you", and red otherwise |
| BookingPage.SuccessMessageStyled | app/page.js:435-441 | the thank-you message is shown as success |
| BookingPage.ErrorMessageStyled | app/page.js:435-441 | the error message is shown as failure |
| BookingPage.OutcomeStyled | app/page.js:435-441 | after a request the message is shown, and it is styled as success exactly when the response was ok |
| BookingPage.EnabledButtonPosts | app/page.js:448-451 | a click on an enabled button always posts the current form |
| BookingPage.ButtonAcrossSubmit | app/page.js:450 | the button is disabled while a request is in flight; afterwards it is disabled iff the request succeeded |
| BookingPage.PostedFormHasTerms | app/page.js:45-50 | every form the page posts passes the handler's terms check |
| BookingPage.ResetFormRejected | app/page.js:68-82 | the handler would reject the reset form for missing fields |
| BookingPage.TermsBoxControlsButton | app/page.js:416-422 | ticking the terms box enables the button unless a request is in flight; unticking it disables the button |
| BookingPage.OtherInputKeepsButton | app/page.js:32-38 | a change to any input other than the terms box leaves the button's state as it was |
| BookingPage.InitialFormIdle | app/page.js:16-42 | the fresh form shows no message and its button is disabled |

## Left out

- The transport's configuration (host, port, credentials) is left out. It only affects how the outside world answers a send. That is the `respond` parameter of `Gateway`.
- Locale formatting is not computed. `toLocaleDateString` and `toLocaleTimeString` are abstract functions in `Env`, applied to the inputs the handler gives them.
- The "submitted on" clock stamps in both bodies are markers without the current time.
- `request.json()` is not modelled. The model starts from the parsed body. A body that is not valid JSON, or is `null`, throws and gets a 500 from the catch in the handler. A number, string, boolean or array body destructures to all-`undefined` properties and gets 400 "Missing required fields"; that is `Handle` on the empty map.
- JSON arrays, nested objects and fractional numbers are not modelled as body values. Only `undefined`, `null`, booleans, integers and strings are.
- HTML markup, inline styles and blank lines of the text body are not modelled. Each body is the ordered list of its headings, rows and paragraphs.
- Submitted values are inserted into both bodies without HTML escaping and with their line breaks. The model keeps each value whole inside its row or line, so `NoticeBodiesAgree` and `OptionalSectionsShown` are about the templates' structure. A value holding a line break or markup can add a line or row that a reader takes for another field, in one body and not the other; the model does not capture that.
- BookingMail.EventTypeDisplay: `toUpperCase` is modelled for ASCII letters only. Other characters keep their case. UTF-16 surrogate pairs are treated as single characters.
- The console output of both files is left out. The alert's text is modelled in `SubmitRun.alert`; showing the dialog is not. The success or error rendering is modelled only as the green or red choice.
- Json.Text: every number prints as its full decimal digits. JavaScript's `String(n)` switches to exponent form from 1e21 (`1e+21`), and `JSON.parse` rounds integers above 2^53; neither is modelled.
- The asynchrony of the page is reduced to one run of `handleSubmit` per request. A second click while a request is in flight is not modelled, because the button is disabled then. Edits to the inputs while a request is in flight are not modelled either: the inputs stay enabled, and on a failure the handler keeps whatever `formData` then holds. So `Submit`'s kept form and `ButtonAcrossSubmit`'s enabled button after a failure hold only when nothing was edited in between.
- The JSX layout, icons, contract text, the `min` date hint and the HTML `required` attributes are presentation. The form is a `div` submitted by a button's `onClick`, so those attributes never gate `handleSubmit`.
- `test.js`, a standalone script that sends one test mail, is not part of this model.
