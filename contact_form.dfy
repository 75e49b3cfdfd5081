/** The enquiry form of the call-to-action section (src/components/sections/CTA.tsx).
    Its four state cells (`formData`, `status`, `errorMessage`, `fieldErrors`) are the
    fields of `ContactForm`; `handleChange` and `handleSubmit` are its methods.
    `handleSubmit` awaits the network, so it is modelled both whole, with the outcome of
    the request as an input, and as the two halves either side of the `await`. The
    contact details shown beside the form are pure fallbacks. */
module ContactForm {
  import opened Js
  import opened ContactSchema
  import Sanity
  import ContactRoute

  datatype Status = Idle | Submitting | Succeeded | Failed

  /** The four inputs, always strings. */
  datatype FormData = FormData(companyName: string, name: string, email: string, message: string)

  const EmptyForm := FormData("", "", "", "")
  const CheckInput := "入力内容をご確認ください"
  const SendFailedFallback := "送信に失敗しました"

  /** `JSON.stringify(formData)` as the validator and the server read it: four strings,
      and no `inquiryType`. */
  function AsBody(d: FormData): (b: Body)
    ensures b.Object? && b.inquiryType == Missing
  {
    Object(Str(d.companyName), Str(d.name), Str(d.email), Str(d.message), Missing)
  }

  function Get(d: FormData, f: Field): string
  {
    match f
    case CompanyName => d.companyName
    case Name => d.name
    case Email => d.email
    case Message => d.message
  }

  /** `{...prev, [name]: value}` */
  function Update(d: FormData, f: Field, value: string): (r: FormData)
    ensures Get(r, f) == value
    ensures forall g :: g != f ==> Get(r, g) == Get(d, g)
  {
    match f
    case CompanyName => d.(companyName := value)
    case Name => d.(name := value)
    case Email => d.(email := value)
    case Message => d.(message := value)
  }

  /** The parsed reply of `/api/contact`: its `success` flag and its `error` member. */
  datatype ServerReply = ServerReply(success: bool, error: Option<string>)

  /** What `fetch` and `response.json()` led to: a response (`response.ok` and the
      parsed reply), or a rejection of either promise. */
  datatype FetchOutcome = Responded(ok: bool, reply: ServerReply) | FetchFailed(err: Thrown)

  datatype Settlement = Sent | NotSent(message: string)

  /** The `try`/`catch` after the request: success only for an ok response whose reply
      says so; otherwise the server's error text, or the fallback when it has none. */
  function Settle(o: FetchOutcome): (r: Settlement)
    ensures r.Sent? <==> o.Responded? && o.ok && o.reply.success
    ensures o.Responded? && r.NotSent? ==> r.message == Or(o.reply.error, SendFailedFallback)
    ensures o.FetchFailed? ==>
      r.message == if o.err.ErrorInstance? then o.err.message else SendFailedFallback
  {
    match o
    case Responded(ok, reply) =>
      if !ok || !reply.success then NotSent(Or(reply.error, SendFailedFallback)) else Sent
    case FetchFailed(err) =>
      NotSent(match err case ErrorInstance(m) => m case NonError(_) => SendFailedFallback)
  }

  /** How the client sees a response of the enquiry endpoint. */
  function Receive(r: ContactRoute.Response): FetchOutcome
  {
    Responded(
      200 <= r.status < 300,
      match r.reply
      case Success(_, _) => ServerReply(true, None)
      case Failure(error, _) => ServerReply(false, Some(error)))
  }

  class ContactForm {
    var formData: FormData
    var status: Status
    var errorMessage: string
    var fieldErrors: FieldErrors

    constructor ()
      ensures formData == EmptyForm && status == Idle && errorMessage == "" && fieldErrors == map[]
    {
      formData := EmptyForm;
      status := Idle;
      errorMessage := "";
      fieldErrors := map[];
    }

    /** `handleChange`: store the value, and drop the field's error list if it has one. */
    method HandleChange(f: Field, value: string)
      modifies this
      ensures formData == Update(old(formData), f, value)
      ensures fieldErrors == old(fieldErrors) - {f}
      ensures status == old(status) && errorMessage == old(errorMessage)
    {
      formData := Update(formData, f, value);
      if f in fieldErrors {
        fieldErrors := fieldErrors - {f};
      }
    }

    /** `handleSubmit` up to the request: reset the status cells, then validate locally.
        A rejected form ends with the validator's errors and no request; an accepted one
        stays submitting and returns the body to send. */
    method BeginSubmit(isEmail: string -> bool) returns (request: Option<Body>)
      modifies this
      ensures formData == old(formData)
      ensures var v := Validate(AsBody(old(formData)), isEmail);
        if v.Rejected? then
          && request == None && status == Failed && errorMessage == CheckInput
          && fieldErrors == v.errors
        else
          && request == Some(AsBody(old(formData))) && status == Submitting
          && errorMessage == "" && fieldErrors == map[]
    {
      status := Submitting;
      errorMessage := "";
      fieldErrors := map[];
      var validation := Validate(AsBody(formData), isEmail);
      if validation.Rejected? {
        fieldErrors := validation.errors;
        status := Failed;
        errorMessage := CheckInput;
        return None;
      }
      return Some(AsBody(formData));
    }

    /** `handleSubmit` after the request: success clears the form; anything else shows
        the message and keeps what was typed. */
    method CompleteSubmit(outcome: FetchOutcome)
      modifies this
      ensures fieldErrors == old(fieldErrors)
      ensures match Settle(outcome)
        case Sent =>
          status == Succeeded && formData == EmptyForm && errorMessage == old(errorMessage)
        case NotSent(m) =>
          status == Failed && formData == old(formData) && errorMessage == m
    {
      match Settle(outcome) {
        case Sent =>
          status := Succeeded;
          formData := EmptyForm;
        case NotSent(m) =>
          status := Failed;
          errorMessage := m;
      }
    }

    /** The whole `handleSubmit`, with `outcome` what the request comes back with. */
    method HandleSubmit(isEmail: string -> bool, outcome: FetchOutcome)
      modifies this
      ensures var v := Validate(AsBody(old(formData)), isEmail);
        if v.Rejected? then
          status == Failed && errorMessage == CheckInput && fieldErrors == v.errors
          && formData == old(formData)
        else
          fieldErrors == map[] &&
          match Settle(outcome)
          case Sent => status == Succeeded && formData == EmptyForm && errorMessage == ""
          case NotSent(m) => status == Failed && formData == old(formData) && errorMessage == m
    {
      var request := BeginSubmit(isEmail);
      if request.Some? {
        CompleteSubmit(outcome);
      }
    }

    /** The "new enquiry" button on the success screen. */
    method StartOver()
      modifies this
      ensures status == Idle
      ensures formData == old(formData) && errorMessage == old(errorMessage) && fieldErrors == old(fieldErrors)
    {
      status := Idle;
    }

    /** `getFieldClassName`'s test: a field is styled as erroneous iff its list is non-empty. */
    predicate HasErrorStyle(f: Field)
      reads this
    {
      f in fieldErrors && |fieldErrors[f]| > 0
    }
  }

  /** After a rejected submit exactly the failing fields are styled as erroneous. */
  lemma ErrorStyleAfterRejection(form: ContactForm, isEmail: string -> bool, f: Field)
    requires Validate(AsBody(form.formData), isEmail).Rejected?
    requires form.fieldErrors == Validate(AsBody(form.formData), isEmail).errors
    ensures form.HasErrorStyle(f) <==> Issues(AsBody(form.formData), f, isEmail) != []
  {
  }

  /** Typing into a field clears its error style and no other's. */
  lemma ErrorStyleAfterChange(before: FieldErrors, after: FieldErrors, changed: Field, g: Field)
    requires after == before - {changed}
    ensures g == changed ==> !(g in after && |after[g]| > 0)
    ensures g != changed ==> ((g in after && |after[g]| > 0) <==> (g in before && |before[g]| > 0))
  {
  }

  // ---------------------------------------------------------------------------------
  // The contact details beside the form

  const FallbackPhone := "0120-XXX-XXX"
  const FallbackEmail := "info@example.com"
  const DefaultPhoneNote := "平日 9:00-18:00"

  /** `phone || siteSettings?.contactPhone || "0120-XXX-XXX"` */
  function DisplayPhone(phone: Option<string>, settings: Option<Sanity.SiteSettings>): (r: string)
    ensures Truthy(phone) ==> r == phone.value
    ensures !Truthy(phone) && settings.Some? && Truthy(settings.value.contactPhone) ==> r == settings.value.contactPhone.value
    ensures !Truthy(phone) && !(settings.Some? && Truthy(settings.value.contactPhone)) ==> r == FallbackPhone
    ensures r != ""
  {
    Or(phone, Or(if settings.Some? then settings.value.contactPhone else None, FallbackPhone))
  }

  /** `email || siteSettings?.contactEmail || "info@example.com"` */
  function DisplayEmail(email: Option<string>, settings: Option<Sanity.SiteSettings>): (r: string)
    ensures Truthy(email) ==> r == email.value
    ensures !Truthy(email) && settings.Some? && Truthy(settings.value.contactEmail) ==> r == settings.value.contactEmail.value
    ensures !Truthy(email) && !(settings.Some? && Truthy(settings.value.contactEmail)) ==> r == FallbackEmail
    ensures r != ""
  {
    Or(email, Or(if settings.Some? then settings.value.contactEmail else None, FallbackEmail))
  }

  /** The `phoneNote` prop under its destructuring default: unlike the `||` chains
      above, only a missing note is replaced, and an empty one is shown empty. */
  function DisplayPhoneNote(phoneNote: Option<string>): (r: string)
    ensures phoneNote.Some? ==> r == phoneNote.value
    ensures phoneNote.None? ==> r == DefaultPhoneNote
    ensures phoneNote == Some("") ==> r == "" && DisplayPhone(Some(""), None) != ""
  {
    OrDefault(phoneNote, DefaultPhoneNote)
  }

  /** The `tel:` link: the number with every hyphen removed. */
  function TelHref(phone: string): string
  {
    "tel:" + RemoveAll(phone, '-')
  }

  /** The dialled number keeps every character but the hyphens, as often as it occurs,
      and has none; `Js.RemoveAllConcat` gives the order. */
  lemma TelHrefDigits(phone: string)
    ensures TelHref(phone)[..4] == "tel:"
    ensures '-' !in TelHref(phone)[4..]
    ensures forall c :: c != '-' ==> multiset(TelHref(phone)[4..])[c] == multiset(phone)[c]
  {
    assert TelHref(phone)[4..] == RemoveAll(phone, '-');
    forall c | c != '-'
      ensures multiset(RemoveAll(phone, '-'))[c] == multiset(phone)[c]
    {
      RemoveAllKeepsOthers(phone, '-', c);
    }
  }

  /** `mailto:` link of the displayed address. */
  function MailHref(email: string): (r: string)
    ensures |r| == |email| + 7 && r[7..] == email
  {
    "mailto:" + email
  }

  // ---------------------------------------------------------------------------------
  // The form and the endpoint together

  /** The form and the endpoint apply the same schema, so a form that passes the local
      check is never refused by the server as invalid; once the server is configured,
      the form reports success exactly when the provider accepted the mail, and
      otherwise shows the server's error message. */
  lemma FormAndServerAgree(d: FormData, isEmail: string -> bool, env: ContactRoute.Env, reply: ContactRoute.ProviderReply)
    requires Validate(AsBody(d), isEmail).Accepted?
    requires ContactRoute.Configured(env)
    ensures var response := ContactRoute.Post(env, ContactRoute.Json(AsBody(d)), isEmail, reply).response;
      && response.status != 400
      && (Settle(Receive(response)).Sent? <==> reply.Delivered?)
      && (Settle(Receive(response)).NotSent? ==> Settle(Receive(response)).message == response.reply.error)
  {
    var response := ContactRoute.Post(env, ContactRoute.Json(AsBody(d)), isEmail, reply).response;
    ContactRoute.ResponseFollowsProvider(ContactRoute.ValidatedRecord, env, ContactRoute.Json(AsBody(d)), isEmail, reply);
    if response.reply.Failure? {
      assert response.reply.error == ContactRoute.SendFailed || response.reply.error == ContactRoute.ServerError;
    }
  }
}
