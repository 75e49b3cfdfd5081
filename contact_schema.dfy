/** The contact form's validation schema (`contactSchema`, src/lib/validations/contact.ts).
    Four fields are declared and each is checked on its own; `safeParse` accepts a record
    only when all four pass, and otherwise reports, per failing field, the list of messages
    (`error.flatten().fieldErrors`). The e-mail grammar is zod's and is passed in as the
    predicate `isEmail`. */
module ContactSchema {
  import opened Js

  /** The JSON types other than string, under the names zod reports them by. */
  datatype Kind = Number | Boolean | Null | Array | ObjectValue

  function KindName(k: Kind): string
  {
    match k
    case Number => "number"
    case Boolean => "boolean"
    case Null => "null"
    case Array => "array"
    case ObjectValue => "object"
  }

  /** A JSON member as the validator sees it: absent (`undefined`), a string, or a JSON
      value of another kind. */
  datatype Value = Missing | Str(s: string) | NonString(kind: Kind)

  /** A parsed request body: an object carrying the members the site's clients may
      send (including the undeclared `inquiryType`), or any JSON value that is not an
      object. Members other than these are ignored by the schema and not modelled. */
  datatype Body =
    | NotAnObject
    | Object(companyName: Value, name: Value, email: Value, message: Value, inquiryType: Value)

  datatype Field = CompanyName | Name | Email | Message

  const AllFields: set<Field> := {CompanyName, Name, Email, Message}

  /** `flatten().fieldErrors`: a message list for each field that failed, and no entry
      for a field that passed. */
  type FieldErrors = map<Field, seq<string>>

  /** The record `safeParse` hands back on success: the four declared fields only. */
  datatype ContactData = ContactData(
    companyName: Option<string>,
    name: string,
    email: string,
    message: Option<string>)

  datatype Validation = Accepted(data: ContactData) | Rejected(errors: FieldErrors)

  // Messages declared in the schema
  const CompanyNameTooLong := "会社名は100文字以内で入力してください"
  const NameEmpty := "お名前を入力してください"
  const NameTooLong := "お名前は50文字以内で入力してください"
  const EmailEmpty := "メールアドレスを入力してください"
  const EmailMalformed := "正しいメールアドレスを入力してください"
  const MessageTooLong := "ご相談内容は1000文字以内で入力してください"

  // zod's own messages (version 3): a missing required member, a member of the wrong
  // JSON type, and a value that fits neither branch of an `.or(...)`
  const Required := "Required"
  const InvalidInput := "Invalid input"

  /** zod's invalid-type message for a string check that met a value of kind `k`. */
  function ExpectedString(k: Kind): (r: string)
    ensures |r| > |"Expected string, received "|
    ensures r[..|"Expected string, received "|] == "Expected string, received "
    ensures r[|"Expected string, received "|..] == KindName(k)
  {
    "Expected string, received " + KindName(k)
  }

  /** The invalid-type message names the kind received: different kinds give different
      messages, and each message starts with zod's fixed text. */
  lemma ExpectedStringNamesKind(k1: Kind, k2: Kind)
    ensures ExpectedString(k1) == ExpectedString(k2) <==> k1 == k2
    ensures ExpectedString(k1) != Required && ExpectedString(k1) != InvalidInput
  {
    var p := "Expected string, received ";
    if ExpectedString(k1) == ExpectedString(k2) {
      assert KindName(k1) == ExpectedString(k1)[|p|..] == ExpectedString(k2)[|p|..] == KindName(k2);
      assert KindName(k1)[..2] == KindName(k2)[..2];
    }
    assert |ExpectedString(k1)| > |Required|;
    assert ExpectedString(k1)[0] != InvalidInput[0];
  }

  const NameMax := 50
  const CompanyNameMax := 100
  const MessageMax := 1000

  /** `z.string().min(1, ...).max(50, ...)`: every failed check adds its message. */
  function NameIssues(v: Value): seq<string>
  {
    match v
    case Missing => [Required]
    case NonString(k) => [ExpectedString(k)]
    case Str(s) =>
      (if |s| < 1 then [NameEmpty] else []) + (if |s| > NameMax then [NameTooLong] else [])
  }

  /** `z.string().min(1, ...).email(...)`: both checks run, so the empty string collects
      the message of each check it fails. */
  function EmailIssues(v: Value, isEmail: string -> bool): seq<string>
  {
    match v
    case Missing => [Required]
    case NonString(k) => [ExpectedString(k)]
    case Str(s) =>
      (if |s| < 1 then [EmailEmpty] else []) + (if !isEmail(s) then [EmailMalformed] else [])
  }

  /** `z.string().max(max, tooLong).optional().or(z.literal(""))`: an absent member passes;
      a string that breaks the limit fails with the limit's message (the first branch is
      the one zod reports); a value of another type fits neither branch. */
  function OptionalTextIssues(v: Value, max: nat, tooLong: string): seq<string>
  {
    match v
    case Missing => []
    case NonString(_) => [InvalidInput]
    case Str(s) => if |s| <= max then [] else [tooLong]
  }

  function Issues(b: Body, f: Field, isEmail: string -> bool): seq<string>
    requires b.Object?
  {
    match f
    case CompanyName => OptionalTextIssues(b.companyName, CompanyNameMax, CompanyNameTooLong)
    case Name => NameIssues(b.name)
    case Email => EmailIssues(b.email, isEmail)
    case Message => OptionalTextIssues(b.message, MessageMax, MessageTooLong)
  }

  function ErrorsOf(b: Body, isEmail: string -> bool): (e: FieldErrors)
    requires b.Object?
    ensures forall f :: f in e <==> Issues(b, f, isEmail) != []
    ensures forall f :: f in e ==> e[f] == Issues(b, f, isEmail)
  {
    map f | f in AllFields && Issues(b, f, isEmail) != [] :: Issues(b, f, isEmail)
  }

  function OptionalText(v: Value): Option<string>
  {
    if v.Str? then Some(v.s) else None
  }

  /** `contactSchema.safeParse(body)` */
  function Validate(b: Body, isEmail: string -> bool): (r: Validation)
    // all or nothing: accepted exactly when every field passes
    ensures r.Accepted? <==> b.Object? && forall f :: Issues(b, f, isEmail) == []
    // a rejection lists exactly the failing fields, each with a non-empty list
    ensures r.Rejected? && b.Object? ==>
      forall f :: (f in r.errors <==> Issues(b, f, isEmail) != [])
    ensures r.Rejected? ==> forall f :: f in r.errors ==> r.errors[f] != []
    // each failing field's list is exactly that field's messages, in check order
    ensures r.Rejected? && b.Object? ==> forall f :: f in r.errors ==> r.errors[f] == Issues(b, f, isEmail)
    // a body that is not an object has no per-field errors
    ensures b.NotAnObject? ==> r == Rejected(map[])
    // the accepted record carries the submitted strings through unchanged
    ensures r.Accepted? ==>
      && b.name == Str(r.data.name) && b.email == Str(r.data.email)
      && r.data.companyName == (if b.companyName.Str? then Some(b.companyName.s) else None)
      && r.data.message == (if b.message.Str? then Some(b.message.s) else None)
  {
    match b
    case NotAnObject => Rejected(map[])
    case Object(_, _, _, _, _) =>
      var errors := ErrorsOf(b, isEmail);
      if errors == map[] then
        assert forall f :: Issues(b, f, isEmail) == [] by {
          forall f ensures Issues(b, f, isEmail) == [] {
            assert f !in errors;
          }
        }
        assert Issues(b, Name, isEmail) == [] && Issues(b, Email, isEmail) == [];
        Accepted(ContactData(OptionalText(b.companyName), b.name.s, b.email.s, OptionalText(b.message)))
      else
        var f :| f in errors;
        Rejected(errors)
  }

  /** `name` passes exactly when it is a string of 1 to 50 characters. */
  lemma NameAcceptedIff(v: Value)
    ensures NameIssues(v) == [] <==> v.Str? && 1 <= |v.s| <= NameMax
  {
  }

  /** The two `name` messages are distinct and never fire together. */
  lemma NameMessagesExclusive(s: string)
    ensures |NameIssues(Str(s))| <= 1
    ensures NameIssues(Str(s)) == [NameEmpty] <==> s == ""
    ensures NameIssues(Str(s)) == [NameTooLong] <==> |s| > NameMax
    ensures NameEmpty != NameTooLong
  {
    assert NameEmpty[3] != NameTooLong[3];
    if |s| > NameMax {
      assert NameIssues(Str(s)) == [NameTooLong];
      assert [NameTooLong] != [NameEmpty];
    }
  }

  /** `email` passes exactly when it is a non-empty string the e-mail grammar accepts;
      the empty string always breaks the `min(1)` check. */
  lemma EmailAcceptedIff(v: Value, isEmail: string -> bool)
    ensures EmailIssues(v, isEmail) == [] <==> v.Str? && v.s != "" && isEmail(v.s)
    ensures v == Str("") ==> EmailEmpty in EmailIssues(v, isEmail)
    ensures v == Str("") && !isEmail("") ==> EmailIssues(v, isEmail) == [EmailEmpty, EmailMalformed]
  {
  }

  /** `companyName` passes when absent, when empty, or when at most 100 characters long. */
  lemma CompanyNameAcceptedIff(v: Value)
    ensures OptionalTextIssues(v, CompanyNameMax, CompanyNameTooLong) == [] <==>
      v.Missing? || (v.Str? && (v.s == "" || |v.s| <= CompanyNameMax))
  {
  }

  /** `message` passes when absent, when empty, or when at most 1000 characters long. */
  lemma MessageAcceptedIff(v: Value)
    ensures OptionalTextIssues(v, MessageMax, MessageTooLong) == [] <==>
      v.Missing? || (v.Str? && (v.s == "" || |v.s| <= MessageMax))
  {
  }

  /** The schema does not declare `inquiryType`: whatever the body carries there, the
      verdict and the accepted record are the same. */
  lemma InquiryTypeIgnored(b: Body, v: Value, isEmail: string -> bool)
    requires b.Object?
    ensures Validate(b.(inquiryType := v), isEmail) == Validate(b, isEmail)
  {
    var b' := b.(inquiryType := v);
    assert forall f :: Issues(b', f, isEmail) == Issues(b, f, isEmail);
    assert ErrorsOf(b', isEmail) == ErrorsOf(b, isEmail);
  }
}
