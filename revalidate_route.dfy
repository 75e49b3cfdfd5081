/** The CMS webhook (`POST /api/revalidate`, src/app/api/revalidate/route.ts): with the
    shared secret configured, the signed payload's document type names the cache tag to
    invalidate. The checks run in order (secret, signature, `_type`) and only a request
    that passes all three invalidates anything, and then exactly one tag.

    Signature checking and body parsing (`parseBody`) are an input: its verdict on the
    signature and the payload it read, or the exception it threw. The invalidation is
    returned as data, as the list of tags handed to `revalidateTag`; `now` stands for
    `Date.now()`. */
module RevalidateRoute {
  import opened Js
  import Sanity

  /** The webhook payload: `_type` and `_id`, either of which may be missing. */
  datatype Payload = Payload(docType: Option<string>, id: Option<string>)

  /** `isValidSignature`: true, false, or null when the request carried no signature. */
  datatype Signature = Valid | Invalid | Unsigned

  datatype Parsed = Parsed(signature: Signature, body: Option<Payload>) | ParseThrew(err: Thrown)

  /** What `revalidateTag` did: returned, or threw. */
  datatype TagCall = Invalidated | TagThrew(err: Thrown)

  /** Response bodies: a plain-text body, or one of the three JSON shapes. */
  datatype Reply =
    | PlainText(text: string)
    | SignatureRejected(isValidSignature: Signature, body: Option<Payload>)
    | BadRequest(body: Option<Payload>)
    | Revalidated(tag: string, now: int)

  datatype Response = Response(status: int, reply: Reply)

  /** The response and the tags passed to `revalidateTag`, in call order. */
  datatype Outcome = Outcome(response: Response, invalidated: seq<string>)

  const MissingSecret := "Missing environment variable SANITY_REVALIDATE_SECRET"
  const UnknownError := "Unknown error"

  /** `err instanceof Error ? err.message : "Unknown error"` */
  function ErrorText(e: Thrown): (r: string)
    ensures e.ErrorInstance? ==> r == e.message
    ensures e.NonError? ==> r == UnknownError
  {
    match e
    case ErrorInstance(m) => m
    case NonError(_) => UnknownError
  }

  /** `body?._type` is truthy. */
  predicate HasType(body: Option<Payload>)
  {
    body.Some? && Truthy(body.value.docType)
  }

  /** The handler. It answers with one of four statuses, invalidates at most one tag,
      and reports success only after an invalidation that returned. */
  function Post(secret: Option<string>, parse: Parsed, tagCall: TagCall, now: int): (r: Outcome)
    ensures r.response.status in {200, 400, 401, 500}
    ensures |r.invalidated| <= 1
    ensures r.response.status == 200 <==> r.invalidated != [] && tagCall.Invalidated?
  {
    if !Truthy(secret) then Outcome(Response(500, PlainText(MissingSecret)), [])
    else
      match parse
      case ParseThrew(err) => Outcome(Response(500, PlainText(ErrorText(err))), [])
      case Parsed(signature, body) =>
        if signature != Valid then Outcome(Response(401, SignatureRejected(signature, body)), [])
        else if !HasType(body) then Outcome(Response(400, BadRequest(body)), [])
        else
          var tag := body.value.docType.value;
          match tagCall
          case Invalidated => Outcome(Response(200, Revalidated(tag, now)), [tag])
          case TagThrew(err) => Outcome(Response(500, PlainText(ErrorText(err))), [tag])
  }

  /** A request that reaches the invalidation step. */
  predicate Authentic(secret: Option<string>, parse: Parsed)
  {
    Truthy(secret) && parse.Parsed? && parse.signature == Valid && HasType(parse.body)
  }

  /** Without the secret the handler answers 500 in plain text and invalidates nothing. */
  lemma NoSecret(secret: Option<string>, parse: Parsed, tagCall: TagCall, now: int)
    requires !Truthy(secret)
    ensures Post(secret, parse, tagCall, now) == Outcome(Response(500, PlainText(MissingSecret)), [])
  {
  }

  /** A missing or wrong signature is refused with 401, echoing the verdict and the
      payload, whether or not the payload names a type: the signature is checked first. */
  lemma SignatureCheckedFirst(secret: Option<string>, signature: Signature, body: Option<Payload>, tagCall: TagCall, now: int)
    requires Truthy(secret) && signature != Valid
    ensures Post(secret, Parsed(signature, body), tagCall, now) ==
      Outcome(Response(401, SignatureRejected(signature, body)), [])
  {
  }

  /** A signed payload without a document type is a 400 that echoes the payload. */
  lemma MissingType(secret: Option<string>, body: Option<Payload>, tagCall: TagCall, now: int)
    requires Truthy(secret) && !HasType(body)
    ensures Post(secret, Parsed(Valid, body), tagCall, now) == Outcome(Response(400, BadRequest(body)), [])
  {
  }

  /** Exactly the authentic requests invalidate, each exactly one tag, their `_type`; an
      authentic request is answered with that tag and the time. */
  lemma OneTagExactlyWhenAuthentic(secret: Option<string>, parse: Parsed, tagCall: TagCall, now: int)
    ensures var o := Post(secret, parse, tagCall, now);
      |o.invalidated| <= 1 && (|o.invalidated| == 1 <==> Authentic(secret, parse))
    ensures var o := Post(secret, parse, tagCall, now);
      Authentic(secret, parse) ==>
        && o.invalidated == [parse.body.value.docType.value]
        && (tagCall.Invalidated? ==> o.response == Response(200, Revalidated(o.invalidated[0], now)))
  {
  }

  /** Anything thrown becomes a plain-text 500 carrying the error's message (or
      "Unknown error"). */
  lemma ThrownIsServerError(secret: Option<string>, err: Thrown, tagCall: TagCall, now: int)
    requires Truthy(secret)
    ensures Post(secret, ParseThrew(err), tagCall, now) ==
      Outcome(Response(500, PlainText(if err.ErrorInstance? then err.message else UnknownError)), [])
  {
  }

  /** The handler keeps no state: the same request gives the same outcome at any time,
      apart from the time it reports. */
  lemma OnlyTimeVaries(secret: Option<string>, parse: Parsed, tagCall: TagCall, now1: int, now2: int)
    ensures var a := Post(secret, parse, tagCall, now1);
      var b := Post(secret, parse, tagCall, now2);
      a.invalidated == b.invalidated && a.response.status == b.response.status
      && (a.response.reply.Revalidated? <==> b.response.reply.Revalidated?)
      && (a.response.reply.Revalidated? ==> a.response.reply.tag == b.response.reply.tag)
      && (!a.response.reply.Revalidated? ==> a.response == b.response)
  {
  }

  /** Publishing a document of any of the home page's types invalidates exactly the tag
      that page's query for it carries. */
  lemma PageTagsInvalidated(secret: Option<string>, i: nat, id: Option<string>, now: int)
    requires Truthy(secret) && i < |Sanity.PageTags|
    ensures Post(secret, Parsed(Valid, Some(Payload(Some(Sanity.PageTags[i]), id))), Invalidated, now).invalidated
      == [Sanity.PageTags[i]]
  {
    assert Sanity.PageTags[i] != "";
  }
}
