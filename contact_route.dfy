/** The enquiry endpoint (`POST /api/contact`, src/app/api/contact/route.ts). In order it
    checks the server configuration, reads the JSON body, validates it with the contact
    schema, sends one notification mail through the mail provider and reports the
    provider's verdict; anything thrown on the way becomes a generic server error.

    The handler is a function of everything it consults: the environment, the outcome of
    reading the body, the e-mail grammar and the provider's reply to the one send it may
    make. The send itself is returned as data: `sent` lists the requests handed to the
    provider, so "no mail unless ..." and "at most one mail" are statements about it. */
module ContactRoute {
  import opened Js
  import opened ContactSchema
  import ContactNotification

  /** `process.env.RESEND_API_KEY`, `process.env.CONTACT_EMAIL`, `process.env.NODE_ENV` */
  datatype Env = Env(resendApiKey: Option<string>, contactEmail: Option<string>, nodeEnv: Option<string>)

  /** `await request.json()`: it rejects on a body that is not JSON, or yields a value. */
  datatype Request = Unreadable(err: Thrown) | Json(body: Body)

  /** The `error` object the provider returns when it refuses a message. */
  datatype ProviderError = ProviderError(name: string, message: string)

  /** The one outcome of `resend.emails.send`: accepted (with the message id, when the
      reply carries one), refused with an error object, or a thrown exception. */
  datatype ProviderReply = Delivered(id: Option<string>) | Refused(error: ProviderError) | SendThrew(err: Thrown)

  datatype SendRequest = SendRequest(
    from: string,
    to: seq<string>,
    subject: string,
    react: ContactNotification.Email)

  /** The optional `details` member of an error response. */
  datatype Details =
    | NoDetails
    | FieldDetails(fields: FieldErrors)
    | ProviderDetails(error: ProviderError)
    | TextDetails(text: string)

  /** The JSON body of a response: `{success: true, message, id}` or
      `{success: false, error, details}`. */
  datatype Reply = Success(message: string, id: Option<string>) | Failure(error: string, details: Details)

  datatype Response = Response(status: int, reply: Reply)

  datatype Outcome = Outcome(response: Response, sent: seq<SendRequest>)

  /** Where the handler takes the enquiry kind from: the validated record (the source as
      written) or the request body (as evidently intended). */
  datatype InquirySource = ValidatedRecord | RequestBody

  const ConfigError := "サーバー設定エラー"
  const InvalidRequest := "入力内容に誤りがあります"
  const SendFailed := "メール送信に失敗しました"
  const ServerError := "サーバーエラーが発生しました"
  const Received := "お問い合わせを受け付けました"
  const Sender := "LEDビジョンレンタル <onboarding@resend.dev>"
  const RentalLabel := "レンタル"
  const PurchaseLabel := "購入"

  predicate IsDevelopment(env: Env)
  {
    env.nodeEnv == Some("development")
  }

  /** `inquiryType === "rental" ? "レンタル" : "購入"`: every other value, including an
      absent one, is labelled as a purchase. */
  function InquiryLabel(inquiryType: Option<string>): (r: string)
    ensures r == RentalLabel <==> inquiryType == Some("rental")
    ensures r == PurchaseLabel <==> inquiryType != Some("rental")
  {
    assert RentalLabel != PurchaseLabel by { assert |RentalLabel| != |PurchaseLabel|; }
    if inquiryType == Some("rental") then RentalLabel else PurchaseLabel
  }

  const SubjectPrefix := "【LEDビジョンレンタル】新規お問い合わせ（"

  /** The subject line names the enquiry kind in full-width brackets; the kind can be read
      back from it, so different kinds give different subjects. */
  function Subject(kind: string): (r: string)
    ensures |r| == |SubjectPrefix| + |kind| + 1
    ensures r[..|SubjectPrefix|] == SubjectPrefix && r[|r| - 1] == '）'
    ensures r[|SubjectPrefix|..|r| - 1] == kind
  {
    SubjectPrefix + kind + "）"
  }

  /** The template's props: absent optional fields are passed on as "". */
  function NotificationProps(data: ContactData): (p: ContactNotification.Props)
    ensures p.name == data.name && p.email == data.email
    ensures p.companyName == OrDefault(data.companyName, "")
    ensures p.message == OrDefault(data.message, "")
  {
    ContactNotification.Props(
      OrStr(OrDefault(data.companyName, ""), ""),
      data.name,
      data.email,
      OrStr(OrDefault(data.message, ""), ""))
  }

  /** The body member read as the handler's `inquiryType` variable. */
  function InquiryType(source: InquirySource, body: Body): Option<string>
  {
    match source
    case ValidatedRecord => None  // the schema strips undeclared members
    case RequestBody => if body.Object? && body.inquiryType.Str? then Some(body.inquiryType.s) else None
  }

  /** The `catch` branch: the message of an `Error`, or the thrown value as text, and only
      in development. */
  function Crash(env: Env, err: Thrown): (r: Response)
    ensures r.status == 500 && r.reply.Failure? && r.reply.error == ServerError
    ensures IsDevelopment(env) <==> r.reply.details.TextDetails?
    ensures IsDevelopment(env) ==> r.reply.details.text == ThrownText(err)
  {
    Response(500, Failure(ServerError, if IsDevelopment(env) then TextDetails(ThrownText(err)) else NoDetails))
  }

  function BadConfig(): Response
  {
    Response(500, Failure(ConfigError, NoDetails))
  }

  /** The handler with the enquiry kind taken from `source`. */
  function Handle(source: InquirySource, env: Env, request: Request, isEmail: string -> bool, reply: ProviderReply): (r: Outcome)
    // one of three statuses, at most one mail, and 200 only for a delivered mail
    ensures r.response.status in {200, 400, 500}
    ensures |r.sent| <= 1
    ensures r.response.status == 200 <==> r.sent != [] && reply.Delivered?
    ensures r.response.status == 400 ==> r.sent == [] && r.response.reply.Failure?
  {
    if !Truthy(env.resendApiKey) || !Truthy(env.contactEmail) then
      Outcome(BadConfig(), [])
    else
      match request
      case Unreadable(err) => Outcome(Crash(env, err), [])
      case Json(body) =>
        match Validate(body, isEmail)
        case Rejected(errors) => Outcome(Response(400, Failure(InvalidRequest, FieldDetails(errors))), [])
        case Accepted(data) =>
          var kind := InquiryLabel(InquiryType(source, body));
          var mail := SendRequest(
            Sender,
            [env.contactEmail.value],
            Subject(kind),
            ContactNotification.Render(NotificationProps(data)));
          var response :=
            match reply
            case Refused(error) =>
              Response(500, Failure(SendFailed, if IsDevelopment(env) then ProviderDetails(error) else NoDetails))
            case Delivered(id) => Response(200, Success(Received, id))
            case SendThrew(err) => Crash(env, err);
          Outcome(response, [mail])
  }

  /** `POST` as written. */
  function Post(env: Env, request: Request, isEmail: string -> bool, reply: ProviderReply): Outcome
  {
    Handle(ValidatedRecord, env, request, isEmail, reply)
  }

  /** `POST` with the enquiry kind read from the request body. */
  function PostIntended(env: Env, request: Request, isEmail: string -> bool, reply: ProviderReply): Outcome
  {
    Handle(RequestBody, env, request, isEmail, reply)
  }

  predicate Configured(env: Env)
  {
    Truthy(env.resendApiKey) && Truthy(env.contactEmail)
  }

  predicate Deliverable(request: Request, isEmail: string -> bool)
  {
    request.Json? && Validate(request.body, isEmail).Accepted?
  }

  /** A missing API key or recipient address is reported before the body is read, and no
      mail is sent. */
  lemma MissingConfiguration(source: InquirySource, env: Env, request: Request, isEmail: string -> bool, reply: ProviderReply)
    requires !Configured(env)
    ensures Handle(source, env, request, isEmail, reply) == Outcome(Response(500, Failure(ConfigError, NoDetails)), [])
  {
  }

  /** An unreadable body is a generic server error, detailed only in development. */
  lemma UnreadableBody(source: InquirySource, env: Env, err: Thrown, isEmail: string -> bool, reply: ProviderReply)
    requires Configured(env)
    ensures var o := Handle(source, env, Unreadable(err), isEmail, reply);
      o.sent == [] && o.response.status == 500 && o.response.reply.error == ServerError
      && (o.response.reply.details == if IsDevelopment(env) then TextDetails(ThrownText(err)) else NoDetails)
  {
  }

  /** A body the schema rejects gets a 400 carrying exactly the schema's field errors, and
      no mail is sent. */
  lemma InvalidBody(source: InquirySource, env: Env, body: Body, isEmail: string -> bool, reply: ProviderReply)
    requires Configured(env) && Validate(body, isEmail).Rejected?
    ensures Handle(source, env, Json(body), isEmail, reply) ==
      Outcome(Response(400, Failure(InvalidRequest, FieldDetails(Validate(body, isEmail).errors))), [])
  {
  }

  /** At most one mail is sent, and one is sent exactly when the server is configured and
      the body is accepted; the mail goes from the fixed sender to the configured
      recipient only, and shows the validated fields. */
  lemma OneMailExactlyWhenAccepted(source: InquirySource, env: Env, request: Request, isEmail: string -> bool, reply: ProviderReply)
    ensures var o := Handle(source, env, request, isEmail, reply);
      |o.sent| <= 1 && (|o.sent| == 1 <==> Configured(env) && Deliverable(request, isEmail))
    ensures var o := Handle(source, env, request, isEmail, reply);
      |o.sent| == 1 ==>
        && o.sent[0].from == Sender
        && o.sent[0].to == [env.contactEmail.value]
        && o.sent[0].react == ContactNotification.Render(NotificationProps(Validate(request.body, isEmail).data))
  {
  }

  /** Once the mail is handed over, the response follows the provider: 200 with the
      message id, 500 with the provider's error (shown only in development), or the
      generic server error if the call threw. */
  lemma ResponseFollowsProvider(source: InquirySource, env: Env, request: Request, isEmail: string -> bool, reply: ProviderReply)
    requires Configured(env) && Deliverable(request, isEmail)
    ensures var r := Handle(source, env, request, isEmail, reply).response;
      && (reply.Delivered? ==> r == Response(200, Success(Received, reply.id)))
      && (reply.Refused? ==>
            r == Response(500, Failure(SendFailed, if IsDevelopment(env) then ProviderDetails(reply.error) else NoDetails)))
      && (reply.SendThrew? ==> r == Crash(env, reply.err))
  {
  }

  /** Success is reported exactly when a mail was sent and the provider accepted it. */
  lemma SuccessIff(source: InquirySource, env: Env, request: Request, isEmail: string -> bool, reply: ProviderReply)
    ensures var o := Handle(source, env, request, isEmail, reply);
      o.response.reply.Success? <==> |o.sent| == 1 && reply.Delivered?
    ensures var o := Handle(source, env, request, isEmail, reply);
      o.response.reply.Success? <==> o.response.status == 200
  {
  }

  /** As written, the subject always says 購入: the validated record has no `inquiryType`,
      so a rental enquiry is labelled as a purchase. */
  lemma AlwaysPurchase(env: Env, request: Request, isEmail: string -> bool, reply: ProviderReply)
    ensures var o := Post(env, request, isEmail, reply);
      forall m :: m in o.sent ==> m.subject == Subject(PurchaseLabel) && m.subject != Subject(RentalLabel)
  {
    assert Subject(PurchaseLabel) != Subject(RentalLabel) by {
      assert |PurchaseLabel| != |RentalLabel|;
    }
  }

  /** A concrete rental enquiry that the handler as written labels as a purchase. */
  lemma RentalEnquiryMislabelled(isEmail: string -> bool)
    requires isEmail("a@b.jp")
    ensures var body := Object(Missing, Str("山田"), Str("a@b.jp"), Missing, Str("rental"));
      var o := Post(Env(Some("key"), Some("ops@example.jp"), None), Json(body), isEmail, Delivered(None));
      |o.sent| == 1 && o.sent[0].subject == Subject(PurchaseLabel)
  {
    var body := Object(Missing, Str("山田"), Str("a@b.jp"), Missing, Str("rental"));
    assert forall f :: Issues(body, f, isEmail) == [];
  }

  /** With the kind read from the body, the subject says レンタル exactly for a rental
      enquiry. */
  lemma IntendedLabel(env: Env, body: Body, isEmail: string -> bool, reply: ProviderReply)
    requires Configured(env) && Validate(body, isEmail).Accepted?
    ensures var o := PostIntended(env, Json(body), isEmail, reply);
      |o.sent| == 1
      && (o.sent[0].subject == Subject(RentalLabel) <==> body.inquiryType == Str("rental"))
  {
    assert Subject(PurchaseLabel) != Subject(RentalLabel) by {
      assert |PurchaseLabel| != |RentalLabel|;
    }
  }

  /** The correction changes nothing but the subject line. */
  lemma IntendedDiffersOnlyInSubject(env: Env, request: Request, isEmail: string -> bool, reply: ProviderReply)
    ensures var a := Post(env, request, isEmail, reply);
      var b := PostIntended(env, request, isEmail, reply);
      a.response == b.response && |a.sent| == |b.sent|
      && forall i :: 0 <= i < |a.sent| ==> a.sent[i] == b.sent[i].(subject := a.sent[i].subject)
  {
  }
}
