/** `POST /api/booking`: validate the body, compose the notice, send it, then
    send the confirmation, and map the outcome to an HTTP response. Any error
    thrown on the way becomes a 500 carrying the error's message. */
module BookingRoute {
  import opened Json
  import opened BookingRequest
  import opened BookingMail

  /** How one `transporter.sendMail` call ends: resolved with a message id, or
      rejected with an error whose `message` is given. */
  datatype SendResult = Sent(messageId: string) | Failed(message: string)

  /** One call of `sendMail`: the mail handed over and how the call ended. */
  datatype Attempt = Attempt(mail: MailOptions, result: SendResult)

  /** The mail transport as the handler sees it. How it answers a call is up
      to the outside world (`respond`), and may depend on the calls before;
      `log` records every call made, in order. */
  class Gateway {
    const respond: (seq<Attempt>, MailOptions) -> SendResult
    var log: seq<Attempt>

    constructor (respond: (seq<Attempt>, MailOptions) -> SendResult)
      ensures this.respond == respond && log == []
    {
      this.respond := respond;
      log := [];
    }

    /** `await transporter.sendMail(mail)`. */
    method SendMail(mail: MailOptions) returns (r: SendResult)
      modifies this
      ensures r == respond(old(log), mail)
      ensures log == old(log) + [Attempt(mail, r)]
    {
      r := respond(log, mail);
      log := log + [Attempt(mail, r)];
    }
  }

  /** The status and JSON body of the response. */
  datatype Response = Response(status: nat, message: string, messageId: Option<string>, error: Option<string>)

  const SentMessage: string := "Booking request sent successfully"
  const FailedMessage: string := "Failed to send booking request"

  /** The message of the TypeError that `eventType.charAt(0)` throws when
      `eventType` is a number or a boolean rather than a string. */
  const CharAtTypeError: string := "eventType.charAt is not a function"

  function Rejected(reason: Rejection): Response
  {
    Response(400, RejectionMessage(reason), None, None)
  }

  function Accepted(messageId: string): Response
  {
    Response(200, SentMessage, Some(messageId), None)
  }

  function ServerError(message: string): Response
  {
    Response(500, FailedMessage, None, Some(message))
  }

  /** The response to one request, and the transport's log after it. */
  datatype Exchange = Exchange(response: Response, log: seq<Attempt>)

  /** The two sends, in order: the confirmation is attempted only once the
      notice went out; the first failure ends the request with a 500 carrying
      its error, and success reports the notice's message id. */
  function Deliver(notice: MailOptions, confirmation: MailOptions,
                   respond: (seq<Attempt>, MailOptions) -> SendResult, history: seq<Attempt>): (ex: Exchange)
    ensures history <= ex.log && |history| + 1 <= |ex.log| <= |history| + 2
    ensures ex.log[|history|] == Attempt(notice, respond(history, notice))
    ensures |ex.log| == |history| + 2 <==> ex.log[|history|].result.Sent?
    ensures |ex.log| == |history| + 2 ==>
              ex.log[|history| + 1] == Attempt(confirmation, respond(ex.log[..|history| + 1], confirmation))
    ensures ex.response.status == 200 || ex.response.status == 500
    ensures ex.response.status == 200 <==>
              |ex.log| == |history| + 2 && ex.log[|history|].result.Sent? && ex.log[|history| + 1].result.Sent?
    ensures ex.response.status == 200 ==> ex.response == Accepted(ex.log[|history|].result.messageId)
    ensures ex.response.status == 500 ==>
              ex.log[|ex.log| - 1].result.Failed? && ex.response == ServerError(ex.log[|ex.log| - 1].result.message)
  {
    var info := respond(history, notice);
    var afterNotice := history + [Attempt(notice, info)];
    if info.Failed? then Exchange(ServerError(info.message), afterNotice)
    else
      var confirmed := respond(afterNotice, confirmation);
      var afterBoth := afterNotice + [Attempt(confirmation, confirmed)];
      if confirmed.Failed? then Exchange(ServerError(confirmed.message), afterBoth)
      else Exchange(Accepted(info.messageId), afterBoth)
  }

  /** What an accepted submission leads to: a 500 without a send when
      `eventType` is not a string (its `charAt` call throws while the notice is
      built), and otherwise the two sends. */
  function Dispatch(sub: Submission, env: Env,
                    respond: (seq<Attempt>, MailOptions) -> SendResult, history: seq<Attempt>): (ex: Exchange)
    ensures history <= ex.log && |ex.log| <= |history| + 2
    ensures ex.response.status == 200 || ex.response.status == 500
    ensures !sub.eventType.Str? ==> ex == Exchange(ServerError(CharAtTypeError), history)
  {
    if !sub.eventType.Str? then Exchange(ServerError(CharAtTypeError), history)
    else Deliver(NoticeMail(sub, env, sub.eventType.s), ConfirmationMail(sub, env), respond, history)
  }

  /** What one request does, given the transport's behaviour and the calls it
      had seen before. A rejected body gets the 400 carrying its reason's
      message and nothing is sent; an accepted one gets a 200 or a 500 after
      at most two sends, as `Dispatch` says. */
  function Handle(body: map<string, JsonValue>, env: Env,
                  respond: (seq<Attempt>, MailOptions) -> SendResult, history: seq<Attempt>): (ex: Exchange)
    ensures Validate(Destructure(body)).Some? ==>
              ex == Exchange(Rejected(Validate(Destructure(body)).value), history)
    ensures Validate(Destructure(body)).None? ==>
              && (ex.response.status == 200 || ex.response.status == 500)
              && history <= ex.log && |ex.log| <= |history| + 2
  {
    var sub := Destructure(body);
    var verdict := Validate(sub);
    if verdict.Some? then Exchange(Rejected(verdict.value), history)
    else Dispatch(sub, env, respond, history)
  }

  /** The handler itself, step by step, with its early returns. */
  method Post(body: map<string, JsonValue>, env: Env, gateway: Gateway) returns (response: Response)
    modifies gateway
    ensures Exchange(response, gateway.log) == Handle(body, env, gateway.respond, old(gateway.log))
  {
    var sub := Destructure(body);
    var rejection := Validate(sub);
    if rejection.Some? {
      return Rejected(rejection.value);
    }
    if !sub.eventType.Str? {
      // thrown while the notice is built, and caught
      return ServerError(CharAtTypeError);
    }
    response := Notify(sub, env, gateway);
  }

  /** Builds the notice and the confirmation of an accepted submission whose
      `eventType` is a string, and sends them. */
  method Notify(sub: Submission, env: Env, gateway: Gateway) returns (response: Response)
    requires sub.eventType.Str?
    modifies gateway
    ensures Exchange(response, gateway.log) == Dispatch(sub, env, gateway.respond, old(gateway.log))
  {
    var notice := NoticeMail(sub, env, sub.eventType.s);
    var confirmation := ConfirmationMail(sub, env);
    response := SendInOrder(notice, confirmation, gateway);
  }

  /** The two awaited `sendMail` calls: a rejection of either is caught and
      answered with a 500; the confirmation is sent only after the notice. */
  method SendInOrder(notice: MailOptions, confirmation: MailOptions, gateway: Gateway) returns (response: Response)
    modifies gateway
    ensures Exchange(response, gateway.log) == Deliver(notice, confirmation, gateway.respond, old(gateway.log))
  {
    var info := gateway.SendMail(notice);
    if info.Failed? {
      return ServerError(info.message);
    }
    var confirmed := gateway.SendMail(confirmation);
    if confirmed.Failed? {
      return ServerError(confirmed.message);
    }
    return Accepted(info.messageId);
  }

  /** The number of calls that delivered their mail. */
  function Delivered(attempts: seq<Attempt>): (n: nat)
    ensures n <= |attempts|
  {
    if attempts == [] then 0
    else (if attempts[0].result.Sent? then 1 else 0) + Delivered(attempts[1..])
  }

  /** A body missing a required value, or giving it a falsy one, gets its
      400 for missing fields and no mail is sent, whatever its `agreeTerms`. */
  lemma RejectedBodySendsNothing(body: map<string, JsonValue>, env: Env,
                                 respond: (seq<Attempt>, MailOptions) -> SendResult, history: seq<Attempt>, key: string)
    requires key in RequiredKeys
    requires !Truthy(Lookup(body, key))
    ensures Handle(body, env, respond, history) == Exchange(Response(400, "Missing required fields", None, None), history)
  {
    FalsyKeyRejected(body, key);
  }

  /** A body complete but for the terms gets 400 "Terms agreement is
      required" and no mail is sent. */
  lemma UncheckedTermsSendsNothing(body: map<string, JsonValue>, env: Env,
                                   respond: (seq<Attempt>, MailOptions) -> SendResult, history: seq<Attempt>)
    requires forall k :: k in RequiredKeys ==> Truthy(Lookup(body, k))
    requires !Truthy(Lookup(body, "agreeTerms"))
    ensures Handle(body, env, respond, history) == Exchange(Response(400, "Terms agreement is required", None, None), history)
  {
    UncheckedTermsRejected(body);
  }

  /** Over the two sends alone: a refused notice is the only call made, and
      its error is the response's. */
  lemma NoticeRefused(notice: MailOptions, confirmation: MailOptions,
                      respond: (seq<Attempt>, MailOptions) -> SendResult, history: seq<Attempt>)
    requires respond(history, notice).Failed?
    ensures var ex := Deliver(notice, confirmation, respond, history);
      && |ex.log| == |history| + 1
      && Delivered(ex.log[|history|..]) == 0
      && ex.response == ServerError(ex.log[|history|].result.message)
  {
    var ex := Deliver(notice, confirmation, respond, history);
    assert ex.log[|history|..] == [ex.log[|history|]];
  }

  /** Over the two sends alone: a delivered notice and a refused
      confirmation give a 500 carrying the confirmation's error, after
      exactly one delivery. */
  lemma ConfirmationRefused(notice: MailOptions, confirmation: MailOptions,
                            respond: (seq<Attempt>, MailOptions) -> SendResult, history: seq<Attempt>)
    requires respond(history, notice).Sent?
    requires respond(history + [Attempt(notice, respond(history, notice))], confirmation).Failed?
    ensures var ex := Deliver(notice, confirmation, respond, history);
      && ex.response == ServerError(respond(history + [Attempt(notice, respond(history, notice))], confirmation).message)
      && |ex.log| == |history| + 2
      && Delivered(ex.log[|history|..]) == 1
  {
    var ex := Deliver(notice, confirmation, respond, history);
    var sent := ex.log[|history|..];
    assert sent == [sent[0], sent[1]] && sent[1..] == [sent[1]] && sent[1..][1..] == [];
  }

  /** Over the two sends alone: both delivered, in order, and the 200 carries
      the notice's message id. */
  lemma BothDelivered(notice: MailOptions, confirmation: MailOptions,
                      respond: (seq<Attempt>, MailOptions) -> SendResult, history: seq<Attempt>)
    requires respond(history, notice).Sent?
    requires respond(history + [Attempt(notice, respond(history, notice))], confirmation).Sent?
    ensures var ex := Deliver(notice, confirmation, respond, history);
      && ex.response == Accepted(respond(history, notice).messageId)
      && |ex.log| == |history| + 2
      && ex.log[|history|].mail == notice
      && ex.log[|history| + 1].mail == confirmation
      && Delivered(ex.log[|history|..]) == 2
  {
    var ex := Deliver(notice, confirmation, respond, history);
    var sent := ex.log[|history|..];
    assert sent == [sent[0], sent[1]] && sent[1..] == [sent[1]] && sent[1..][1..] == [];
  }

  /** The transport refuses the notice: nothing is delivered, the
      confirmation is never attempted, and the 500 carries that error. */
  lemma NoticeFailureStops(body: map<string, JsonValue>, env: Env,
                           respond: (seq<Attempt>, MailOptions) -> SendResult, history: seq<Attempt>)
    requires Validate(Destructure(body)) == None && Destructure(body).eventType.Str?
    requires forall m :: respond(history, m).Failed?
    ensures var ex := Handle(body, env, respond, history);
      && |ex.log| == |history| + 1
      && Delivered(ex.log[|history|..]) == 0
      && ex.response == ServerError(ex.log[|history|].result.message)
  {
    var sub := Destructure(body);
    HandleDispatches(body, env, respond, history);
    DispatchDelivers(sub, env, respond, history);
    NoticeRefused(NoticeMail(sub, env, sub.eventType.s), ConfirmationMail(sub, env), respond, history);
  }

  /** The transport delivers the first mail and refuses the next: the
      response is still 500, although exactly one mail was delivered. */
  lemma ConfirmationFailureStillFails(body: map<string, JsonValue>, env: Env,
                                      respond: (seq<Attempt>, MailOptions) -> SendResult, history: seq<Attempt>)
    requires Validate(Destructure(body)) == None && Destructure(body).eventType.Str?
    requires forall m :: respond(history, m).Sent?
    requires forall h, m :: |h| == |history| + 1 ==> respond(h, m).Failed?
    ensures var ex := Handle(body, env, respond, history);
      && ex.response.status == 500
      && |ex.log| == |history| + 2
      && Delivered(ex.log[|history|..]) == 1
  {
    var sub := Destructure(body);
    var notice := NoticeMail(sub, env, sub.eventType.s);
    var confirmation := ConfirmationMail(sub, env);
    HandleDispatches(body, env, respond, history);
    DispatchDelivers(sub, env, respond, history);
    var afterNotice := history + [Attempt(notice, respond(history, notice))];
    assert respond(afterNotice, confirmation).Failed?;
    ConfirmationRefused(notice, confirmation, respond, history);
  }

  /** The transport delivers everything: the notice and then the
      confirmation go out, and the 200 carries the notice's message id. */
  lemma BothSentSucceeds(body: map<string, JsonValue>, env: Env,
                         respond: (seq<Attempt>, MailOptions) -> SendResult, history: seq<Attempt>)
    requires Validate(Destructure(body)) == None && Destructure(body).eventType.Str?
    requires forall h, m :: respond(h, m).Sent?
    ensures var sub := Destructure(body);
      var ex := Handle(body, env, respond, history);
      && ex.response == Accepted(respond(history, NoticeMail(sub, env, sub.eventType.s)).messageId)
      && |ex.log| == |history| + 2
      && ex.log[|history|].mail == NoticeMail(sub, env, sub.eventType.s)
      && ex.log[|history| + 1].mail == ConfirmationMail(sub, env)
      && Delivered(ex.log[|history|..]) == 2
  {
    var sub := Destructure(body);
    HandleDispatches(body, env, respond, history);
    DispatchDelivers(sub, env, respond, history);
    BothDelivered(NoticeMail(sub, env, sub.eventType.s), ConfirmationMail(sub, env), respond, history);
  }

  /** Over the two sends alone: success exactly when both calls delivered. */
  lemma {:induction false} DeliverSuccessIffBoth(notice: MailOptions, confirmation: MailOptions,
                                                 respond: (seq<Attempt>, MailOptions) -> SendResult, history: seq<Attempt>)
    ensures var ex := Deliver(notice, confirmation, respond, history);
      ex.response.status == 200 <==> Delivered(ex.log[|history|..]) == 2
  {
    var ex := Deliver(notice, confirmation, respond, history);
    var sent := ex.log[|history|..];
    if |sent| == 2 {
      assert sent[1..] == [sent[1]] && sent[1..][1..] == [];
    } else {
      assert sent == [sent[0]] && sent[1..] == [];
    }
  }

  /** A body that passes validation is handled as `Dispatch` handles it. */
  lemma HandleDispatches(body: map<string, JsonValue>, env: Env,
                         respond: (seq<Attempt>, MailOptions) -> SendResult, history: seq<Attempt>)
    requires Validate(Destructure(body)) == None
    ensures Handle(body, env, respond, history) == Dispatch(Destructure(body), env, respond, history)
  {
  }

  /** A string `eventType` leads to the two sends of the composed mails. */
  lemma DispatchDelivers(sub: Submission, env: Env,
                         respond: (seq<Attempt>, MailOptions) -> SendResult, history: seq<Attempt>)
    requires sub.eventType.Str?
    ensures Dispatch(sub, env, respond, history) ==
              Deliver(NoticeMail(sub, env, sub.eventType.s), ConfirmationMail(sub, env), respond, history)
  {
  }

  /** Success exactly when both mails were delivered, for an accepted submission. */
  lemma {:induction false} DispatchSuccessIffBoth(sub: Submission, env: Env,
                                                  respond: (seq<Attempt>, MailOptions) -> SendResult, history: seq<Attempt>)
    ensures var ex := Dispatch(sub, env, respond, history);
      ex.response.status == 200 <==> Delivered(ex.log[|history|..]) == 2
  {
    if sub.eventType.Str? {
      DispatchDelivers(sub, env, respond, history);
      DeliverSuccessIffBoth(NoticeMail(sub, env, sub.eventType.s), ConfirmationMail(sub, env), respond, history);
    } else {
      var ex := Dispatch(sub, env, respond, history);
      assert ex.log[|history|..] == [];
    }
  }

  /** The response reports success exactly when both mails were delivered. */
  lemma {:induction false} SuccessIffBothDelivered(body: map<string, JsonValue>, env: Env,
                                                   respond: (seq<Attempt>, MailOptions) -> SendResult, history: seq<Attempt>)
    ensures var ex := Handle(body, env, respond, history);
      ex.response.status == 200 <==> Delivered(ex.log[|history|..]) == 2
  {
    if Validate(Destructure(body)).Some? {
      var ex := Handle(body, env, respond, history);
      assert ex.log[|history|..] == [];
    } else {
      HandleDispatches(body, env, respond, history);
      DispatchSuccessIffBoth(Destructure(body), env, respond, history);
    }
  }
}
