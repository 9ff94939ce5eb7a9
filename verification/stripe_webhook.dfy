/** The payment webhook of the second draft (`pkg/stripe/webhook.go`):
    verify the event, and on a completed checkout call the provisioning of
    the hosting account and, when it succeeds, tell the user. Signature
    checking and decoding are done by the payment library and are passed in
    as functions; so is the provisioning. The handler keeps no record of
    events it has seen and does not touch the conversation sessions. */
module StripeWebhook {
  import opened Base
  import Manager

  const StatusOK := 200
  const StatusBadRequest := 400
  const StatusInternalServerError := 500
  const StatusServiceUnavailable := 503

  /** Bodies longer than this fail to read. */
  const MaxBodyBytes := 65536

  const CheckoutCompleted := "checkout.session.completed"

  /** The message sent once provisioning succeeded: the head, the domain, the tail. */
  const ConfirmationHead := "Ótima notícia! ✅\n\nSeu pagamento foi confirmado e sua conta para o domínio `"
  const ConfirmationTail :=
    "` foi criada com sucesso!\n\nEm breve você receberá seus dados de acesso.\n(Lógica de envio de senha a ser implementada)"

  function ConfirmationText(domain: string): (t: string)
    ensures |t| == |ConfirmationHead| + |domain| + |ConfirmationTail|
    ensures t[..|ConfirmationHead|] == ConfirmationHead
    ensures t[|ConfirmationHead|..|ConfirmationHead| + |domain|] == domain
    ensures t[|ConfirmationHead| + |domain|..] == ConfirmationTail
  {
    var t := ConfirmationHead + domain + ConfirmationTail;
    assert t[..|ConfirmationHead|] == ConfirmationHead;
    assert t[|ConfirmationHead|..|ConfirmationHead| + |domain|] == domain;
    assert t[|ConfirmationHead| + |domain|..] == ConfirmationTail;
    t
  }

  /** A verified event: its type and its undecoded payload. */
  datatype Event = Event(eventType: string, raw: seq<byte>)

  /** The fields of a checkout session the handler reads. */
  datatype CheckoutSession = CheckoutSession(metadata: map<string, string>, customerEmail: string)

  /** The request: the body, or `None` when reading it fails in transport,
      and the `Stripe-Signature` header. */
  datatype Request = Request(body: Option<seq<byte>>, signature: string)

  /** `webhook.ConstructEvent(payload, signature, secret)`: the event, or
      `None` when the signature does not verify. */
  type ConstructEvent = (seq<byte>, string, string) -> Option<Event>

  /** `json.Unmarshal` of the event data into a checkout session. */
  type DecodeSession = seq<byte> -> Option<CheckoutSession>

  /** A call of `ProvisionAccount(userID, domain, contactEmail)`. */
  datatype ProvisionCall = ProvisionCall(userID: string, domain: string, contactEmail: string)

  datatype Notification = Notification(to: string, text: string)

  /** The status written, the provisioning call made (if any) and the
      message sent (if any). Whether the message was delivered does not
      change the status. */
  datatype Outcome = Outcome(status: int, provisioned: Option<ProvisionCall>, notified: Option<Notification>)

  /** `StateManager.ProvisionAccount(userID, domain, contactEmail)`:
      whether it returned without error. */
  type Provision = (string, string, string) -> bool

  /** The external services one request talks to. */
  datatype Services = Services(
    secret: string,
    constructEvent: ConstructEvent,
    decodeSession: DecodeSession,
    provision: Provision)

  /** The provisioning the program wires in: the manager's, on top of the
      hosting panel's account creation. It succeeds exactly when the panel
      accepts the request built from the domain and the e-mail; the user id
      plays no part in it. */
  function ProgramProvision(createAccount: Manager.CreateAccount): (p: Provision)
    ensures forall userID, domain, contactEmail ::
              p(userID, domain, contactEmail) <==> createAccount(Manager.ProvisionParams(domain, contactEmail))
  {
    (userID, domain, contactEmail) => Manager.ProvisionAccount(userID, domain, contactEmail, createAccount).Success?
  }

  /** Reading the body through `http.MaxBytesReader`. */
  function ReadBody(body: Option<seq<byte>>): Option<seq<byte>>
  {
    match body
    case Some(b) => if |b| <= MaxBodyBytes then Some(b) else None
    case None => None
  }

  /** The properties every outcome of the handler has: a confirmation
      goes out exactly when provisioning was called and succeeded, then with
      200, and the status follows the provisioning's result. */
  predicate WellFormedOutcome(r: Outcome, provision: Provision)
  {
    && r.status in {StatusOK, StatusBadRequest, StatusInternalServerError, StatusServiceUnavailable}
    && (r.status != StatusOK ==> r.notified.None?)
    && (r.provisioned.None? ==> r.notified.None?)
    && (r.provisioned.Some? ==>
          r.status == (if provision(r.provisioned.value.userID, r.provisioned.value.domain,
                                    r.provisioned.value.contactEmail)
                       then StatusOK else StatusInternalServerError))
    && (r.provisioned.Some? && r.status == StatusOK ==> r.notified.Some?)
    && (r.notified.Some? ==>
          && r.provisioned.Some?
          && r.notified.value == Notification(r.provisioned.value.userID, ConfirmationText(r.provisioned.value.domain)))
  }

  /** The handling of a decoded completed checkout: a session without a
      user is acknowledged and dropped; otherwise provisioning is called
      and, if that worked, the user is told. */
  function Fulfil(session: CheckoutSession, provision: Provision): (r: Outcome)
    ensures r.status != StatusServiceUnavailable
    ensures WellFormedOutcome(r, provision)
    ensures r.provisioned.Some? <==> "user_id" in session.metadata
    ensures r.provisioned.None? ==> r == Outcome(StatusOK, None, None)
    ensures r.provisioned.Some? ==>
              r.provisioned.value
              == ProvisionCall(session.metadata["user_id"],
                               if "domain" in session.metadata then session.metadata["domain"] else "",
                               session.customerEmail)
  {
    if "user_id" !in session.metadata then Outcome(StatusOK, None, None)
    else
      var userID := session.metadata["user_id"];
      var domain := if "domain" in session.metadata then session.metadata["domain"] else "";
      var call := ProvisionCall(userID, domain, session.customerEmail);
      if !provision(userID, domain, session.customerEmail) then Outcome(StatusInternalServerError, Some(call), None)
      else Outcome(StatusOK, Some(call), Some(Notification(userID, ConfirmationText(domain))))
  }

  /** `ServeHTTP` of the payment webhook. */
  function ServeHTTP(req: Request, svc: Services): (r: Outcome)
    ensures ReadBody(req.body).None? <==> r.status == StatusServiceUnavailable
    ensures ReadBody(req.body).Some? && svc.constructEvent(ReadBody(req.body).value, req.signature, svc.secret).None?
            ==> r == Outcome(StatusBadRequest, None, None)
    ensures WellFormedOutcome(r, svc.provision)
  {
    match ReadBody(req.body)
    case None => Outcome(StatusServiceUnavailable, None, None)
    case Some(payload) =>
      match svc.constructEvent(payload, req.signature, svc.secret)
      case None => Outcome(StatusBadRequest, None, None)
      case Some(event) =>
        if event.eventType != CheckoutCompleted then Outcome(StatusOK, None, None)
        else match svc.decodeSession(event.raw)
          case None => Outcome(StatusBadRequest, None, None)
          case Some(session) => Fulfil(session, svc.provision)
  }

  /** Whether a request gets as far as calling the provisioning. */
  predicate ReachesProvisioning(req: Request, svc: Services)
  {
    && ReadBody(req.body).Some?
    && svc.constructEvent(ReadBody(req.body).value, req.signature, svc.secret).Some?
    && var event := svc.constructEvent(ReadBody(req.body).value, req.signature, svc.secret).value;
    && event.eventType == CheckoutCompleted
    && svc.decodeSession(event.raw).Some?
    && "user_id" in svc.decodeSession(event.raw).value.metadata
  }

  /** Exactly the verified, completed checkouts that name a user lead to
      a call of the provisioning. */
  lemma ProvisionsExactlyCompletedCheckouts(req: Request, svc: Services)
    ensures ServeHTTP(req, svc).provisioned.Some? <==> ReachesProvisioning(req, svc)
  {
  }

  /** The provisioning is called with the metadata's user and domain (empty when
      absent), with the customer's e-mail as contact. */
  lemma ProvisionsFromMetadata(req: Request, svc: Services)
    requires ReachesProvisioning(req, svc)
    ensures var event := svc.constructEvent(ReadBody(req.body).value, req.signature, svc.secret).value;
            var session := svc.decodeSession(event.raw).value;
            ServeHTTP(req, svc).provisioned
            == Some(ProvisionCall(session.metadata["user_id"],
                                  if "domain" in session.metadata then session.metadata["domain"] else "",
                                  session.customerEmail))
  {
  }

  /** A verified completed checkout whose session does not decode is
      rejected with 400, and nothing else happens. */
  lemma UndecodableSessionRejected(req: Request, svc: Services)
    requires ReadBody(req.body).Some?
    requires svc.constructEvent(ReadBody(req.body).value, req.signature, svc.secret).Some?
    requires var event := svc.constructEvent(ReadBody(req.body).value, req.signature, svc.secret).value;
             event.eventType == CheckoutCompleted && svc.decodeSession(event.raw).None?
    ensures ServeHTTP(req, svc) == Outcome(StatusBadRequest, None, None)
  {
  }

  /** Events other than a completed checkout are acknowledged and ignored. */
  lemma OtherEventsIgnored(req: Request, svc: Services)
    requires ReadBody(req.body).Some?
    requires svc.constructEvent(ReadBody(req.body).value, req.signature, svc.secret).Some?
    requires svc.constructEvent(ReadBody(req.body).value, req.signature, svc.secret).value.eventType != CheckoutCompleted
    ensures ServeHTTP(req, svc) == Outcome(StatusOK, None, None)
  {
  }

  /** A completed checkout without a user in its metadata is acknowledged
      with 200, so that it is not delivered again, and nothing else happens. */
  lemma MissingUserAcknowledged(req: Request, svc: Services)
    requires ReadBody(req.body).Some?
    requires svc.constructEvent(ReadBody(req.body).value, req.signature, svc.secret).Some?
    requires var event := svc.constructEvent(ReadBody(req.body).value, req.signature, svc.secret).value;
             && event.eventType == CheckoutCompleted
             && svc.decodeSession(event.raw).Some?
             && "user_id" !in svc.decodeSession(event.raw).value.metadata
    ensures ServeHTTP(req, svc) == Outcome(StatusOK, None, None)
  {
  }

  /** The number of provisioning calls a sequence of deliveries causes. */
  function ProvisionCount(reqs: seq<Request>, svc: Services): nat
    decreases |reqs|
  {
    if |reqs| == 0 then 0
    else (if ServeHTTP(reqs[0], svc).provisioned.Some? then 1 else 0) + ProvisionCount(reqs[1..], svc)
  }

  /** There is no deduplication: every delivery that gets as far as the
      provisioning calls it, however many came before with the same user
      and domain, so `n` such deliveries call it `n` times. */
  lemma {:induction false} RedeliveryProvisionsAgain(reqs: seq<Request>, svc: Services)
    requires forall i :: 0 <= i < |reqs| ==> ReachesProvisioning(reqs[i], svc)
    ensures ProvisionCount(reqs, svc) == |reqs|
    decreases |reqs|
  {
    if |reqs| > 0 {
      ProvisionsExactlyCompletedCheckouts(reqs[0], svc);
      RedeliveryProvisionsAgain(reqs[1..], svc);
    }
  }
}
