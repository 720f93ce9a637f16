/** The request body of `POST /api/booking` and its two-stage validation. */
module BookingRequest {
  import opened Json

  /** The thirteen properties the handler destructures from the body. */
  datatype Submission = Submission(
    firstName: JsonValue,
    lastName: JsonValue,
    email: JsonValue,
    phone: JsonValue,
    organization: JsonValue,
    eventDate: JsonValue,
    eventTime: JsonValue,
    venue: JsonValue,
    eventType: JsonValue,
    expectedAttendance: JsonValue,
    performanceDuration: JsonValue,
    specialRequests: JsonValue,
    agreeTerms: JsonValue)

  /** The names of the required properties, in the order they are checked. */
  const RequiredKeys: seq<string> :=
    ["firstName", "lastName", "email", "phone", "organization",
     "eventDate", "eventTime", "venue", "eventType"]

  /** `const { firstName, ..., agreeTerms } = body`: an absent key reads as `undefined`. */
  function Destructure(body: map<string, JsonValue>): Submission
  {
    Submission(
      Lookup(body, "firstName"), Lookup(body, "lastName"), Lookup(body, "email"),
      Lookup(body, "phone"), Lookup(body, "organization"), Lookup(body, "eventDate"),
      Lookup(body, "eventTime"), Lookup(body, "venue"), Lookup(body, "eventType"),
      Lookup(body, "expectedAttendance"), Lookup(body, "performanceDuration"),
      Lookup(body, "specialRequests"), Lookup(body, "agreeTerms"))
  }

  /** The values of the required properties, in the order of `RequiredKeys`. */
  function Required(sub: Submission): (vs: seq<JsonValue>)
    ensures |vs| == |RequiredKeys|
  {
    [sub.firstName, sub.lastName, sub.email, sub.phone, sub.organization,
     sub.eventDate, sub.eventTime, sub.venue, sub.eventType]
  }

  /** Each required value of a destructured body is the body's property of that name. */
  lemma RequiredOfBody(body: map<string, JsonValue>, i: nat)
    requires i < |RequiredKeys|
    ensures Required(Destructure(body))[i] == Lookup(body, RequiredKeys[i])
  {
  }

  datatype Rejection = MissingFields | TermsNotAccepted

  /** The `message` of the 400 response for each rejection. */
  function RejectionMessage(r: Rejection): string
  {
    match r
    case MissingFields => "Missing required fields"
    case TermsNotAccepted => "Terms agreement is required"
  }

  /** The handler's checks, in its order: first every required property must be
      truthy, then `agreeTerms` must be. `None` means the submission passes. */
  function Validate(sub: Submission): (r: Option<Rejection>)
    ensures r == Some(MissingFields) <==> exists i :: 0 <= i < |Required(sub)| && !Truthy(Required(sub)[i])
    ensures r == Some(TermsNotAccepted) <==>
              (forall i :: 0 <= i < |Required(sub)| ==> Truthy(Required(sub)[i])) && !Truthy(sub.agreeTerms)
    ensures r == None <==>
              (forall i :: 0 <= i < |Required(sub)| ==> Truthy(Required(sub)[i])) && Truthy(sub.agreeTerms)
  {
    if !Truthy(sub.firstName) || !Truthy(sub.lastName) || !Truthy(sub.email) ||
       !Truthy(sub.phone) || !Truthy(sub.organization) || !Truthy(sub.eventDate) ||
       !Truthy(sub.eventTime) || !Truthy(sub.venue) || !Truthy(sub.eventType)
    then
      var vs := Required(sub);
      assert !Truthy(vs[0]) || !Truthy(vs[1]) || !Truthy(vs[2]) || !Truthy(vs[3]) || !Truthy(vs[4]) ||
             !Truthy(vs[5]) || !Truthy(vs[6]) || !Truthy(vs[7]) || !Truthy(vs[8]);
      Some(MissingFields)
    else if !Truthy(sub.agreeTerms) then Some(TermsNotAccepted)
    else None
  }

  /** A body that lacks a required key, or gives it a falsy value (`""`,
      `null`, `false` or `0`), is rejected for missing fields whatever else it
      holds, `agreeTerms` included. */
  lemma {:induction false} FalsyKeyRejected(body: map<string, JsonValue>, key: string)
    requires key in RequiredKeys
    requires !Truthy(Lookup(body, key))
    ensures Validate(Destructure(body)) == Some(MissingFields)
  {
    var i :| 0 <= i < |RequiredKeys| && RequiredKeys[i] == key;
    RequiredOfBody(body, i);
    assert !Truthy(Required(Destructure(body))[i]);
  }

  /** A body whose nine required values are all truthy but whose `agreeTerms`
      is falsy is rejected for the terms. */
  lemma {:induction false} UncheckedTermsRejected(body: map<string, JsonValue>)
    requires forall k :: k in RequiredKeys ==> Truthy(Lookup(body, k))
    requires !Truthy(Lookup(body, "agreeTerms"))
    ensures Validate(Destructure(body)) == Some(TermsNotAccepted)
  {
    forall i | 0 <= i < |RequiredKeys|
      ensures Truthy(Required(Destructure(body))[i])
    {
      RequiredOfBody(body, i);
    }
  }
}
