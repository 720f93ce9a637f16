/** The booking form in the browser: its state, the change handler, the
    submit handler with its request and its outcome, the submit button's
    enable condition and the styling of the message shown under the form. */
module BookingPage {
  import opened Json
  import opened JsStrings
  import opened BookingRequest

  /** The text inputs of the form, in the order they are declared. */
  const TextFields: seq<string> :=
    ["firstName", "lastName", "email", "phone", "organization", "eventDate",
     "eventTime", "venue", "eventType", "expectedAttendance",
     "performanceDuration", "specialRequests"]

  /** Every property of `formData`: the text fields and the terms checkbox. */
  const FormKeys: set<string> := set k | k in TextFields + ["agreeTerms"]

  /** The form as first rendered, and as reset after a successful request:
      every text field `""` and `agreeTerms` false. */
  function EmptyForm(): (f: map<string, JsonValue>)
    ensures f.Keys == FormKeys
    ensures forall k :: k in TextFields ==> Lookup(f, k) == Str("")
    ensures Lookup(f, "agreeTerms") == Bool(false)
  {
    assert "agreeTerms" !in TextFields;
    map k | k in FormKeys :: if k == "agreeTerms" then Bool(false) else Str("")
  }

  /** The properties of `e.target` that `handleChange` reads. */
  datatype InputTarget = InputTarget(name: string, value: string, kind: string, checked: bool)

  /** `setFormData(prev => ({ ...prev, [name]: ... }))`: the named property
      takes the box's `checked` flag for a checkbox and the input's `value`
      otherwise; no other property changes. */
  function Changed(form: map<string, JsonValue>, t: InputTarget): (r: map<string, JsonValue>)
    ensures r.Keys == form.Keys + {t.name}
    ensures t.kind == "checkbox" ==> r[t.name] == Bool(t.checked)
    ensures t.kind != "checkbox" ==> r[t.name] == Str(t.value)
    ensures forall k :: k in form && k != t.name ==> r[k] == form[k]
  {
    form[t.name := if t.kind == "checkbox" then Bool(t.checked) else Str(t.value)]
  }

  /** The three pieces of component state. */
  datatype FormState = FormState(formData: map<string, JsonValue>, isSubmitting: bool, submitMessage: string)

  function Initial(): FormState
  {
    FormState(EmptyForm(), false, "")
  }

  /** `disabled={!formData.agreeTerms || isSubmitting}`. */
  predicate ButtonDisabled(s: FormState)
  {
    !Truthy(Lookup(s.formData, "agreeTerms")) || s.isSubmitting
  }

  const TermsAlert: string := "Please read and agree to the performance agreement terms before submitting."
  // The two messages are spelled in pieces only to keep the verifier's view
  // of them small; each concatenation is the handler's single string.
  const SuccessMessage: string :=
    "Thank you" + " for your booking request!" + " We will contact you within 24 hours" +
    " to confirm availability and discuss next steps."
  const ErrorMessage: string :=
    "Sorry, there was an error" + " sending your booking request." + " Please try again" +
    " or contact us directly."

  /** How the message box looks: not rendered when the message is empty,
      green when it mentions "Thank you", red otherwise. */
  datatype MessageStyle = Hidden | Success | Failure

  function StyleOf(message: string): MessageStyle
  {
    if message == "" then Hidden
    else if Includes(message, "Thank you") then Success
    else Failure
  }

  /** How the `fetch` of `api/booking` ends, as far as the handler can tell. */
  datatype FetchOutcome = ResponseOk | ResponseNotOk | FetchThrew

  /** One run of `handleSubmit`: the body it posts (if any), the alert it
      raises (if any), the state while the request is in flight (if it is
      made), and the state once the handler has finished. */
  datatype SubmitRun = SubmitRun(request: Option<map<string, JsonValue>>, alert: Option<string>,
                                 during: Option<FormState>, after: FormState)

  /** What `handleSubmit` does from state `s` when the request ends as `outcome`. */
  function Submit(s: FormState, outcome: FetchOutcome): (run: SubmitRun)
    ensures run.request.None? <==> !Truthy(Lookup(s.formData, "agreeTerms"))
    ensures run.request.None? ==> run.alert == Some(TermsAlert) && run.during.None? && run.after == s
    ensures run.request.Some? ==>
              && run.alert.None?
              && run.request.value == s.formData
              && run.during == Some(FormState(s.formData, true, ""))
              && !run.after.isSubmitting
    ensures run.request.Some? && outcome.ResponseOk? ==>
              && run.after.formData.Keys == FormKeys
              && (forall k :: k in TextFields ==> Lookup(run.after.formData, k) == Str(""))
              && Lookup(run.after.formData, "agreeTerms") == Bool(false)
              && run.after.submitMessage == SuccessMessage
    ensures run.request.Some? && !outcome.ResponseOk? ==>
              run.after.formData == s.formData && run.after.submitMessage == ErrorMessage
  {
    if !Truthy(Lookup(s.formData, "agreeTerms")) then
      SubmitRun(None, Some(TermsAlert), None, s)
    else
      var during := FormState(s.formData, true, "");
      var after :=
        if outcome.ResponseOk? then FormState(EmptyForm(), false, SuccessMessage)
        else FormState(s.formData, false, ErrorMessage);
      SubmitRun(Some(s.formData), None, Some(during), after)
  }

  /** The component, with its state variables as fields. */
  class BookingForm {
    var formData: map<string, JsonValue>
    var isSubmitting: bool
    var submitMessage: string

    function State(): FormState
      reads this
    {
      FormState(formData, isSubmitting, submitMessage)
    }

    constructor ()
      ensures State() == Initial()
    {
      formData := EmptyForm();
      isSubmitting := false;
      submitMessage := "";
    }

    /** `handleChange(e)` for an input whose target is `t`. */
    method HandleChange(t: InputTarget)
      modifies this
      ensures State() == old(State()).(formData := Changed(old(formData), t))
    {
      formData := formData[t.name := if t.kind == "checkbox" then Bool(t.checked) else Str(t.value)];
    }

    /** `handleSubmit(e)`: refuse with an alert when the terms are unchecked;
        otherwise mark the form busy, clear the message, post `formData`,
        and on an ok response thank the user and reset the form, or on any
        other outcome show the error and keep the form; then mark it idle. */
    method HandleSubmit(outcome: FetchOutcome)
      returns (request: Option<map<string, JsonValue>>, alert: Option<string>, during: Option<FormState>)
      modifies this
      ensures SubmitRun(request, alert, during, State()) == Submit(old(State()), outcome)
    {
      if !Truthy(Lookup(formData, "agreeTerms")) {
        return None, Some(TermsAlert), None;
      }
      isSubmitting := true;
      submitMessage := "";
      request, alert, during := Some(formData), None, Some(State());
      if outcome.ResponseOk? {
        submitMessage := SuccessMessage;
        formData := EmptyForm();
      } else {
        submitMessage := ErrorMessage;
      }
      isSubmitting := false;
    }
  }

  /** The thank-you message is shown in green. */
  lemma SuccessMessageStyled()
    ensures StyleOf(SuccessMessage) == Success
  {
    assert SuccessMessage[..9] == "Thank you";
    assert OccursAt(SuccessMessage, "Thank you", 0);
  }

  /** The error message is shown in red: it has no capital T at all. */
  lemma ErrorMessageStyled()
    ensures StyleOf(ErrorMessage) == Failure
  {
    assert 'T' !in ErrorMessage;
    NotIncludedWithoutFirstChar(ErrorMessage, "Thank you");
  }

  /** A request that was made ends green exactly when the response was ok. */
  lemma {:induction false} OutcomeStyled(s: FormState, outcome: FetchOutcome)
    requires Submit(s, outcome).request.Some?
    ensures StyleOf(Submit(s, outcome).after.submitMessage) == Success <==> outcome.ResponseOk?
    ensures StyleOf(Submit(s, outcome).after.submitMessage) != Hidden
  {
    SuccessMessageStyled();
    ErrorMessageStyled();
  }

  /** A click on an enabled button always posts the form. */
  lemma EnabledButtonPosts(s: FormState, outcome: FetchOutcome)
    requires !ButtonDisabled(s)
    ensures Submit(s, outcome).request == Some(s.formData)
  {
  }

  /** While the request is in flight the button is disabled; afterwards it is
      disabled again after a success (the terms box is cleared) and enabled
      again after a failure (the form, terms included, is kept). */
  lemma {:induction false} ButtonAcrossSubmit(s: FormState, outcome: FetchOutcome)
    requires Submit(s, outcome).request.Some?
    ensures ButtonDisabled(Submit(s, outcome).during.value)
    ensures ButtonDisabled(Submit(s, outcome).after) <==> outcome.ResponseOk?
  {
  }

  /** Whatever the client posts carries checked terms, so the handler never
      answers it with "Terms agreement is required". */
  lemma {:induction false} PostedFormHasTerms(s: FormState, outcome: FetchOutcome)
    requires Submit(s, outcome).request.Some?
    ensures Validate(Destructure(Submit(s, outcome).request.value)) != Some(TermsNotAccepted)
  {
    var f := Submit(s, outcome).request.value;
    assert Destructure(f).agreeTerms == Lookup(f, "agreeTerms");
  }

  /** The form reset after a success would itself be refused by the handler
      for missing fields, so it cannot be re-posted unchanged. */
  lemma {:induction false} ResetFormRejected(s: FormState)
    requires Submit(s, ResponseOk).request.Some?
    ensures Validate(Destructure(Submit(s, ResponseOk).after.formData)) == Some(MissingFields)
  {
    var f := Submit(s, ResponseOk).after.formData;
    assert Lookup(f, "firstName") == Str("") by { assert "firstName" in TextFields; }
    FalsyKeyRejected(f, "firstName");
  }

  /** Ticking the terms box enables the button unless a request is in flight,
      and unticking it disables the button. */
  lemma TermsBoxControlsButton(s: FormState, checked: bool, value: string)
    ensures var t := InputTarget("agreeTerms", value, "checkbox", checked);
      ButtonDisabled(s.(formData := Changed(s.formData, t))) <==> !checked || s.isSubmitting
  {
  }

  /** Typing into any other input leaves the button as it was. */
  lemma {:induction false} OtherInputKeepsButton(s: FormState, t: InputTarget)
    requires t.name != "agreeTerms"
    ensures ButtonDisabled(s.(formData := Changed(s.formData, t))) == ButtonDisabled(s)
  {
    var f := Changed(s.formData, t);
    assert Lookup(f, "agreeTerms") == Lookup(s.formData, "agreeTerms");
  }

  /** The fresh form shows no message and its button is disabled. */
  lemma InitialFormIdle()
    ensures StyleOf(Initial().submitMessage) == Hidden
    ensures ButtonDisabled(Initial())
  {
  }
}
