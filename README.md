# LED vision rental landing page: a verified model of its logic

The landing page of an LED-screen rental business is built with Next.js. Its content comes
from a Sanity CMS, and it has two API routes. This project models the parts of it that make
decisions, and proves what they do:

- **The enquiry pipeline.**
  - The zod schema `contactSchema`: module `ContactSchema`.
  - The `/api/contact` handler, which validates, labels, sends one mail through Resend and
    maps the provider's reply to a response: `ContactRoute`.
  - The notification mail's fixed four-row table: `ContactNotification`.
  - The enquiry form of the call-to-action section: the class `ContactForm.ContactForm`, whose
    methods change the form's four state cells as `handleChange` and `handleSubmit` do.
- **The webhook `/api/revalidate`.** It checks the secret, then the signature, then `_type`,
  and then invalidates one cache tag: `RevalidateRoute`.
- **`sanityFetch`'s choice of cache options**, and the site settings record: `Sanity`.
- **`extractPlainText`**, the Portable Text flattener that three sections share: `PortableText`.
- **The section components' normalisers.** Each shows the CMS records one to one when there
  are any, and otherwise its list prop or its built-in items (`Cms.FromCms`). Each also fills
  in missing members:
  - `Faq` also has the open-question set toggle, as a class over a JavaScript `Set`.
  - `UseCases`, `Reason`, `Problem`, `CaseStudy`, `Testimonials`, `Pricing` and `ClientLogos`.
  - `Hero` also has `extractYouTubeId`, the background selection and the headline split.
  - `Footer`.
  - `SectionTitle` is the two-part heading that two sections share.
- **JavaScript built-ins** the logic relies on are modelled in `Js`: `||` on possibly undefined
  strings, `String(n)`, `padStart`, `indexOf`, `includes`, `replace`, `split`, `join` and
  `slice`.

Foreign pieces are inputs:

- The e-mail grammar is a predicate `isEmail`.
- Resend's reply, the outcome of the browser's `fetch`, `parseBody`'s signature verdict and
  whatever was thrown are data the caller supplies.
- `revalidateTag` calls are returned as a list of tags.
- The clock is a parameter (`now`, `year`).

## Model

| member | source | states |
|---|---|---|
| ContactSchema.Validate | src/lib/validations/contact.ts:3-22 | Accepted exactly when every field passes. A rejection lists exactly the failing fields, each with exactly that field's messages, a non-empty list. A non-object has no field errors. The accepted record carries the submitted strings unchanged. |
| ContactSchema.Issues | src/lib/validations/contact.ts:3-22 | The messages of one field's checks; no contract of its own. Validate states acceptance and the error map in terms of it. |
| ContactSchema.NameIssues | src/lib/validations/contact.ts:9-12 | `name`'s messages: Required when absent, the invalid-type message for another JSON kind, one per failed length check. Stated by NameAcceptedIff and NameMessagesExclusive. |
| ContactSchema.EmailIssues | src/lib/validations/contact.ts:13-16 | `email`'s messages, one per failed check. Stated by EmailAcceptedIff. |
| ContactSchema.OptionalTextIssues | src/lib/validations/contact.ts:4-8 | The optional fields' messages: none when absent, the limit's message for a long string, Invalid input for another kind. Stated by CompanyNameAcceptedIff and MessageAcceptedIff. |
| ContactSchema.ExpectedString | src/lib/validations/contact.ts:9-16 | zod's invalid-type message: "Expected string, received " followed by the name of the JSON kind that was sent. |
| ContactSchema.ExpectedStringNamesKind | src/lib/validations/contact.ts:9-16 | Different kinds give different invalid-type messages, and none of them is Required or Invalid input. |
| ContactSchema.NameAcceptedIff | src/lib/validations/contact.ts:9-12 | `name` passes if and only if it is a string of 1 to 50 characters. |
| ContactSchema.NameMessagesExclusive | src/lib/validations/contact.ts:9-12 | At most one name message fires. The empty message fires iff the name is empty, the too-long one iff it exceeds 50. The two messages differ. |
| ContactSchema.EmailAcceptedIff | src/lib/validations/contact.ts:13-16 | `email` passes iff it is a non-empty string the grammar accepts. The empty string always breaks `min(1)`. |
| ContactSchema.CompanyNameAcceptedIff | src/lib/validations/contact.ts:4-8 | `companyName` passes iff it is absent, empty, or at most 100 characters. |
| ContactSchema.MessageAcceptedIff | src/lib/validations/contact.ts:17-21 | `message` passes iff it is absent, empty, or at most 1000 characters. |
| ContactSchema.InquiryTypeIgnored | src/lib/validations/contact.ts:3-22 | Whatever `inquiryType` the body carries, the verdict and the accepted record are the same (undeclared keys are stripped). |
| ContactRoute.InquiryLabel | src/app/api/contact/route.ts:42 | The label is レンタル iff the kind is "rental", and 購入 for every other value, absent included. |
| ContactRoute.InquiryType | src/app/api/contact/route.ts:39-42 | The kind the handler reads: always absent from the validated record, the body's string when it is read from the request. Stated by AlwaysPurchase and IntendedLabel. |
| ContactRoute.Subject | src/app/api/contact/route.ts:47 | The subject starts with the fixed prefix 【LEDビジョンレンタル】新規お問い合わせ（, ends with ）, and holds exactly the label between them. |
| ContactRoute.NotificationProps | src/app/api/contact/route.ts:48-54 | Name and e-mail are passed as validated; an absent company name or message becomes "". |
| ContactRoute.Crash | src/app/api/contact/route.ts:74-88 | The `catch` branch. Stated by UnreadableBody and ResponseFollowsProvider: a throw gives 500 サーバーエラーが発生しました, with the error text as details exactly in development. |
| ContactRoute.BadConfig | src/app/api/contact/route.ts:9-23 | The 500 サーバー設定エラー response with no details. Stated by MissingConfiguration. |
| ContactRoute.Handle | src/app/api/contact/route.ts:6-90 | One of the statuses 200, 400 and 500. At most one mail. 200 iff a mail went out and the provider delivered it. A 400 sends nothing and reports a failure. |
| ContactRoute.Post | src/app/api/contact/route.ts:6-88 | `POST` as written, the kind read from the validated record. Its branches are stated by MissingConfiguration, UnreadableBody, InvalidBody, OneMailExactlyWhenAccepted, ResponseFollowsProvider, SuccessIff and AlwaysPurchase. |
| ContactRoute.PostIntended | src/app/api/contact/route.ts:39-47 | `POST` with the kind read from the request body. Stated by IntendedLabel and IntendedDiffersOnlyInSubject. |
| ContactRoute.MissingConfiguration | src/app/api/contact/route.ts:9-23 | Without the API key or the recipient the answer is 500 サーバー設定エラー, and no mail is sent. |
| ContactRoute.UnreadableBody | src/app/api/contact/route.ts:28-88 | A body that cannot be parsed gives the generic 500, detailed only in development, and no mail. |
| ContactRoute.InvalidBody | src/app/api/contact/route.ts:30-37 | A rejected body gives 400 入力内容に誤りがあります with exactly the schema's field errors, and no mail. |
| ContactRoute.OneMailExactlyWhenAccepted | src/app/api/contact/route.ts:44-55 | At most one mail is sent, and one exactly when configured and accepted. It goes from the fixed sender to the configured address only, and shows the validated fields. |
| ContactRoute.ResponseFollowsProvider | src/app/api/contact/route.ts:57-73 | After the send: 200 with the id on delivery; 500 メール送信に失敗しました with the provider's error only in development; the generic 500 if the call threw. |
| ContactRoute.SuccessIff | src/app/api/contact/route.ts:57-73 | Success is reported iff a mail was sent and delivered, and iff the status is 200. |
| ContactRoute.AlwaysPurchase | src/app/api/contact/route.ts:39-47 | As written, every mail sent has the 購入 subject and never the レンタル one. |
| ContactRoute.RentalEnquiryMislabelled | src/app/api/contact/route.ts:39-47 | A concrete accepted body with `inquiryType` "rental" is mailed with the 購入 subject. |
| ContactRoute.IntendedLabel | src/app/api/contact/route.ts:42 | With the kind read from the request body, an accepted enquiry's subject says レンタル iff the body says "rental". |
| ContactRoute.IntendedDiffersOnlyInSubject | src/app/api/contact/route.ts:6-90 | The corrected handler gives the same response and the same mails, apart from the subject. |
| ContactNotification.Render | src/emails/ContactNotification.tsx:34-145 | The heading and four rows, captioned 会社名, お名前, メールアドレス and ご相談内容 in that order. |
| ContactNotification.OrPlaceholder | src/emails/ContactNotification.tsx:72-142 | `value || "（未入力）"`. Stated by OptionalCells and PlaceholderAmbiguous. |
| ContactNotification.RenderRecover | src/emails/ContactNotification.tsx:63-142 | Rendering loses nothing for props that are not the placeholder text: the props can be read back from the mail. |
| ContactNotification.PlaceholderAmbiguous | src/emails/ContactNotification.tsx:72-142 | An empty company name or message renders exactly like the placeholder text itself. |
| ContactNotification.OptionalCells | src/emails/ContactNotification.tsx:72-142 | An empty company name or message shows （未入力）; otherwise it is shown verbatim. |
| ContactNotification.RequiredCells | src/emails/ContactNotification.tsx:94-122 | The name is shown verbatim, without placeholder. The e-mail is a link whose text is the address and whose href is mailto: plus the address. |
| ContactForm.AsBody | src/components/sections/CTA.tsx:79 | The form is sent as an object of its four strings, with no `inquiryType`. |
| ContactForm.Update | src/components/sections/CTA.tsx:54 | The named field takes the new value, and every other field keeps its old one. |
| ContactForm.Settle | src/components/sections/CTA.tsx:75-95 | The `try`/`catch` after the request. Stated by FormAndServerAgree: a locally valid form succeeds iff the provider delivered, and otherwise shows the server's message. |
| ContactForm.Receive | src/components/sections/CTA.tsx:76-86 | How the form reads the endpoint's answer: `response.ok` is a 2xx status, and the reply's `success` and `error`. Stated by FormAndServerAgree. |
| ContactForm.ContactForm.constructor | src/components/sections/CTA.tsx:40-48 | The form starts empty and idle, with no message and no field errors. |
| ContactForm.ContactForm.HandleChange | src/components/sections/CTA.tsx:50-58 | Only the named field changes; only that field's error list is dropped; status and message stay. |
| ContactForm.ContactForm.BeginSubmit | src/components/sections/CTA.tsx:60-73 | Status cells are reset. A local rejection gives status error, 入力内容をご確認ください and the schema's errors, with no request. Otherwise the request body is the form. |
| ContactForm.ContactForm.CompleteSubmit | src/components/sections/CTA.tsx:84-95 | On success: status success and all four fields reset to "". Otherwise: status error with the settled message, form kept. |
| ContactForm.ContactForm.HandleSubmit | src/components/sections/CTA.tsx:60-96 | The whole submit: local rejection sends nothing; an accepted form ends in success (form cleared) or error with the server's message. |
| ContactForm.ContactForm.StartOver | src/components/sections/CTA.tsx:146 | The new-enquiry button sets the status back to idle and changes nothing else. |
| ContactForm.ErrorStyleAfterRejection | src/components/sections/CTA.tsx:98-106 | After a rejected submit a field is styled as erroneous iff the schema found issues with it. |
| ContactForm.ContactForm.HasErrorStyle | src/components/sections/CTA.tsx:98-106 | A field is styled as erroneous iff it has a non-empty error list. Stated by ErrorStyleAfterRejection and ErrorStyleAfterChange. |
| ContactForm.ErrorStyleAfterChange | src/components/sections/CTA.tsx:55-57 | Typing clears the error style of the edited field, and no other's. |
| ContactForm.DisplayPhone | src/components/sections/CTA.tsx:38 | The prop, else the settings' phone, else 0120-XXX-XXX; never empty. |
| ContactForm.DisplayEmail | src/components/sections/CTA.tsx:39 | The prop, else the settings' address, else info@example.com; never empty. |
| ContactForm.DisplayPhoneNote | src/components/sections/CTA.tsx:33 | Only a missing note is replaced by 平日 9:00-18:00; an empty one is shown empty, where an empty phone would be replaced. |
| ContactForm.TelHref | src/components/sections/CTA.tsx:295 | The `tel:` link. Stated by TelHrefDigits and Footer.PhoneLink. |
| ContactForm.TelHrefDigits | src/components/sections/CTA.tsx:295 | The link is tel: followed by the number, with no hyphen in it, and with every other character kept as often as in the number. |
| ContactForm.MailHref | src/components/sections/CTA.tsx:317 | The link is mailto: followed by exactly the address. |
| ContactForm.FormAndServerAgree | src/components/sections/CTA.tsx:66-95 | A form that passes the local check is never refused as invalid. With a configured server it succeeds iff the provider delivered, else shows the server's message. |
| RevalidateRoute.NoSecret | src/app/api/revalidate/route.ts:27-34 | Without the secret: 500 in plain text, nothing invalidated. |
| RevalidateRoute.Post | src/app/api/revalidate/route.ts:25-74 | One of the statuses 200, 400, 401 and 500. At most one tag invalidated. 200 iff a tag was invalidated and the call returned. |
| RevalidateRoute.SignatureCheckedFirst | src/app/api/revalidate/route.ts:42-48 | A bad signature gives 401 echoing the verdict and the payload, whether or not it has `_type`; nothing invalidated. |
| RevalidateRoute.MissingType | src/app/api/revalidate/route.ts:50-55 | A signed payload without `_type` gives 400 Bad Request echoing it; nothing invalidated. |
| RevalidateRoute.OneTagExactlyWhenAuthentic | src/app/api/revalidate/route.ts:60-68 | At most one tag is invalidated, and one iff the request is authentic; it is the payload's `_type`, and the answer reports that tag and the time. |
| RevalidateRoute.ThrownIsServerError | src/app/api/revalidate/route.ts:69-73 | A throw gives a plain-text 500 carrying the message, or Unknown error. |
| RevalidateRoute.OnlyTimeVaries | src/app/api/revalidate/route.ts:25-74 | The same request gives the same outcome at any time, apart from the reported time. |
| RevalidateRoute.PageTagsInvalidated | src/app/page.tsx:45-81 | Publishing a document of each page type invalidates exactly the tag the page's query carries. |
| Sanity.DevelopmentBypassesCache | src/lib/sanity.ts:22-26 | In development: no-store and no next options. |
| Sanity.SanityFetch | src/lib/sanity.ts:11-28 | The call handed to the CMS client. Stated by DevelopmentBypassesCache, ProductionCaching and QueryAndParams. |
| Sanity.Fetched | src/lib/sanity.ts:35-42 | The `siteSettings` query selects neither `logoUrl` nor `logoAlt`. Used by Footer.PageFooter. |
| Sanity.ProductionCaching | src/lib/sanity.ts:13-28 | Elsewhere: force-cache, tags passed unchanged, tagged queries never refreshed on a timer, untagged ones after the given revalidate, 60 by default. |
| Sanity.QueryAndParams | src/lib/sanity.ts:11-24 | The query is passed as given and params default to the empty object. |
| Sanity.PageQueriesRefreshOnDemand | src/app/page.tsx:45-81 | Every home-page query is tagged, so outside development each waits for its tag to be invalidated. |
| PortableText.Lines | src/components/sections/FAQ.tsx:67-72 | There are never more lines than entries. |
| PortableText.ExtractPlainText | src/components/sections/FAQ.tsx:65-74 | A missing or non-array value gives "". |
| PortableText.BlocksOf | src/components/sections/FAQ.tsx:68 | The filtered entries are blocks. |
| PortableText.ConcatAppend | src/components/sections/FAQ.tsx:71 | Running span texts together distributes over concatenation. |
| PortableText.LinesAppend | src/components/sections/FAQ.tsx:67-72 | Filtering and mapping distribute over concatenation. |
| PortableText.LinesAreBlockLines | src/components/sections/FAQ.tsx:67-72 | One line per block, in order, each the block's span texts. |
| PortableText.NonBlockIgnored | src/components/sections/FAQ.tsx:68 | An entry that is not a block contributes nothing, wherever it stands. |
| PortableText.AppendBlock | src/components/sections/FAQ.tsx:73 | Appending a block appends its line after a line break, or gives just its line when there was no block. |
| PortableText.NoBlocksNoText | src/components/sections/FAQ.tsx:67-73 | Without blocks the text is empty. |
| PortableText.NoBlock | src/components/sections/FAQ.tsx:68 | Without block entries the filter keeps nothing. |
| PortableText.LinesRecovered | src/components/sections/FAQ.tsx:67-73 | Splitting the text at line breaks gives the blocks' lines back, when no line contains a break. |
| Cms.NeverEmpty | src/components/sections/FAQ.tsx:90-97 | With built-in items a section is never empty, whatever the CMS returns. |
| Faq.DisplayFaqsMapping | src/components/sections/FAQ.tsx:90-97 | The CMS FAQs one to one and in order, answers flattened; otherwise the list prop or the built-ins. |
| Faq.ToItem | src/components/sections/FAQ.tsx:91-96 | One CMS FAQ as shown. Stated by DisplayFaqsMapping. |
| Faq.DisplayFaqs | src/components/sections/FAQ.tsx:90-97 | `displayFaqs`. Stated by DisplayFaqsMapping and Cms.NeverEmpty. |
| Faq.DefaultIdsDistinct | src/components/sections/FAQ.tsx:19-62 | The built-in questions have distinct ids. |
| Faq.Toggled | src/components/sections/FAQ.tsx:100-109 | The id is in the result iff it was not before; every other id keeps its membership. |
| Faq.ToggleTwice | src/components/sections/FAQ.tsx:100-109 | Toggling the same id twice restores the set. |
| Faq.TogglesCommute | src/components/sections/FAQ.tsx:100-109 | Toggles of two ids can be done in either order. |
| Faq.OpenIffOddClicks | src/components/sections/FAQ.tsx:100-123 | After a run of clicks a question is open iff its initial state flipped an odd number of times. |
| Faq.StringSet.Empty | src/components/sections/FAQ.tsx:98 | `new Set()` is empty. |
| Faq.StringSet.Copy | src/components/sections/FAQ.tsx:102 | `new Set(prev)` has the same members. |
| Faq.StringSet.Add | src/components/sections/FAQ.tsx:106 | `add` adds exactly the id. |
| Faq.StringSet.Delete | src/components/sections/FAQ.tsx:104 | `delete` removes exactly the id. |
| Faq.Accordion.constructor | src/components/sections/FAQ.tsx:98 | The accordion starts with a fresh, empty set. |
| Faq.Accordion.ToggleItem | src/components/sections/FAQ.tsx:100-110 | The new set is a fresh object holding the toggled members, and the previous set object is left as it was. |
| UseCases.DisplayUseCasesMapping | src/components/sections/UseCases.tsx:121-131 | CMS cases one to one and in order: id, tab label as title, description flattened; otherwise the list prop or the built-ins. |
| UseCases.ToUseCase | src/components/sections/UseCases.tsx:122-130 | One CMS case as shown. Stated by DisplayUseCasesMapping. |
| UseCases.DisplayUseCases | src/components/sections/UseCases.tsx:121-131 | `displayUseCases`. Stated by DisplayUseCasesMapping. |
| UseCases.Features | src/components/sections/UseCases.tsx:127 | The equipment names. Stated by FeaturesAreEquipmentNames. |
| UseCases.FirstEquipment | src/components/sections/UseCases.tsx:128-129 | The first equipment entry, if any. Stated by SizeAndBudgetFromFirstEntry. |
| UseCases.FeaturesAreEquipmentNames | src/components/sections/UseCases.tsx:127 | One feature per equipment entry, in order, its name or ""; none without a list. |
| UseCases.SizeAndBudgetFromFirstEntry | src/components/sections/UseCases.tsx:128-129 | Size and budget are the first entry's spec and note, or "" when there is no entry or it lacks them. |
| UseCases.Heading | src/components/sections/UseCases.tsx:206-207 | The two drawn parts put together are the title (the built-in one when none is given); the first has at most two characters. |
| SectionTitle.TitlePartsJoin | src/components/sections/UseCases.tsx:206-207 | `slice(0, 2)` followed by `slice(2)` is the title, and the first part has at most two characters. |
| SectionTitle.SplitTitle | src/components/sections/UseCases.tsx:206-207 | The two-part heading. Stated by TitlePartsJoin. |
| Reason.DisplayReasonsMapping | src/components/sections/Reason.tsx:74-82 | CMS reasons one to one and in order: numbered by position, icon by position modulo three, no highlights, "" for a missing description; otherwise the list prop or the built-ins. |
| Reason.ToItem | src/components/sections/Reason.tsx:75-81 | One CMS reason as shown. Stated by DisplayReasonsMapping. |
| Reason.DisplayReasons | src/components/sections/Reason.tsx:74-82 | `displayReasons`. Stated by DisplayReasonsMapping and IconsCycle. |
| Reason.NumbersIdentifyCards | src/components/sections/Reason.tsx:77 | A card's number reads back as its position plus one, and different cards have different numbers. |
| Reason.IconPeriod | src/components/sections/Reason.tsx:46-76 | The icon rule has period three, and neighbouring positions never share an icon. |
| Reason.IconsCycle | src/components/sections/Reason.tsx:76 | Icons repeat every three cards, and neighbouring cards never share one. |
| Reason.DefaultsFollowTheRule | src/components/sections/Reason.tsx:18-46 | The built-in reasons are numbered and iconed by the same rule as CMS ones. |
| Reason.LayoutAlternates | src/components/sections/Reason.tsx:95-104 | Neighbouring cards never face the same way, and the first is not reversed. |
| Problem.HeadingsFallBack | src/components/sections/Problem.tsx:56-66 | Title, subtitle and transition text are the CMS text when non-empty, else the built-in one, so never empty; the items are the CMS ones if there are any. |
| Problem.Title | src/components/sections/Problem.tsx:56-57 | The section title. Stated by HeadingsFallBack. |
| Problem.SectionSubtitle | src/components/sections/Problem.tsx:58-60 | The subtitle. Stated by HeadingsFallBack. |
| Problem.TransitionText | src/components/sections/Problem.tsx:61-62 | The transition sentence. Stated by HeadingsFallBack. |
| Problem.Items | src/components/sections/Problem.tsx:63-66 | The items shown. Stated by HeadingsFallBack and DefaultCards. |
| Problem.Cards | src/components/sections/Problem.tsx:140-150 | One card per item. |
| Problem.CardAt | src/components/sections/Problem.tsx:122-150 | One card. Stated by CardsShowItems. |
| Problem.CardsShowItems | src/components/sections/Problem.tsx:122-150 | Card i shows item i with badge reading i+1. It has an image iff the item has a URL; the alt text is the item's, else its title. |
| Problem.DefaultCards | src/components/sections/Problem.tsx:63-66 | Without CMS items six cards are shown, each pictured and described by its title. |
| Problem.PageProblem | src/app/page.tsx:97 | Given nothing, as on the home page, the section shows its built-in title, subtitle, transition sentence and six cards. |
| Problem.SegmentShape | src/components/sections/Problem.tsx:182-191 | The lead is the text before the first 、 (all of it when there is none). The 、 is shown iff the text has one. すべて解決 is highlighted when it occurs. The tail is shown iff できます occurs. |
| Problem.Segment | src/components/sections/Problem.tsx:182-191 | The pieces of the transition line. Stated by SegmentShape, SecondPieceHighlighted and NoCommaNoHighlight. |
| Problem.Rendered | src/components/sections/Problem.tsx:182-191 | The text the line shows. Stated by StandardShapeRoundTrip, PlainTwoPieces and NoCommaRepeatsPhrase. |
| Problem.SecondPieceHighlighted | src/components/sections/Problem.tsx:185-188 | Without すべて解決, the highlight is the text between the first 、 and the next one, with its first できます。 removed. |
| Problem.TwoPiecesHighlightSecond | src/components/sections/Problem.tsx:185-188 | For "a、b" with neither piece holding 、 and no すべて解決, the highlight is b with its first できます。 removed. |
| Problem.NoCommaNoHighlight | src/components/sections/Problem.tsx:185-188 | Without 、 and without すべて解決 nothing is highlighted. |
| Problem.StandardShapeRoundTrip | src/components/sections/Problem.tsx:182-191 | A sentence shaped "lead、すべて解決できます。" is segmented as such and shown exactly as written. |
| Problem.StandardLead | src/components/sections/Problem.tsx:182 | In that shape the first piece is the lead. |
| Problem.StandardComma | src/components/sections/Problem.tsx:183 | In that shape the text includes 、. |
| Problem.StandardPhrases | src/components/sections/Problem.tsx:185-189 | In that shape the text includes すべて解決 and できます. |
| Problem.DefaultTransitionShown | src/components/sections/Problem.tsx:182-191 | The built-in sentence is shown as written. |
| Problem.PlainTwoPieces | src/components/sections/Problem.tsx:182-191 | "a、b" without the key phrases is shown as written, b highlighted. |
| Problem.NoCommaRepeatsPhrase | src/components/sections/Problem.tsx:182-191 | A text without 、 that contains すべて解決 is shown with the phrase once more after it. |
| CaseStudy.LocationLabels | src/components/sections/CaseStudy.tsx:62-90 | A known event type shows its label, another shows itself, none shows "". |
| CaseStudy.Location | src/components/sections/CaseStudy.tsx:90 | The location label. Stated by LocationLabels. |
| CaseStudy.DisplayCaseStudiesMapping | src/components/sections/CaseStudy.tsx:84-96 | CMS cases one to one and in order: title the summary or the client's name, location by label, first image or "", no date, no results; otherwise the list prop or the built-ins. |
| CaseStudy.ToItem | src/components/sections/CaseStudy.tsx:85-95 | One CMS case as shown. Stated by DisplayCaseStudiesMapping. |
| CaseStudy.DisplayCaseStudies | src/components/sections/CaseStudy.tsx:84-96 | `displayCaseStudies`. Stated by DisplayCaseStudiesMapping. |
| CaseStudy.TwoPlusOne | src/components/sections/CaseStudy.tsx:107-158 | The grid holds the first two cases, the wide card the third; a case is shown iff it is among the first three, once. |
| CaseStudy.Arrange | src/components/sections/CaseStudy.tsx:107-158 | The grid and the wide card. Stated by TwoPlusOne. |
| Testimonials.Rating | src/components/sections/Testimonials.tsx:69 | A missing or zero rating becomes 5. Stated by UnratedShowsFive and DisplayTestimonialsMapping. |
| Testimonials.DisplayTestimonialsMapping | src/components/sections/Testimonials.tsx:62-71 | CMS testimonials one to one and in order, missing author details "", rating defaulted; otherwise the list prop or the built-ins. |
| Testimonials.ToItem | src/components/sections/Testimonials.tsx:63-70 | One CMS testimonial as shown. Stated by DisplayTestimonialsMapping and Rating. |
| Testimonials.DisplayTestimonials | src/components/sections/Testimonials.tsx:62-71 | `displayTestimonials`. Stated by DisplayTestimonialsMapping. |
| Testimonials.Clamp | src/components/sections/Testimonials.tsx:94-101 | At most five, and a rating from 0 to 5 is kept. |
| Testimonials.FilledStars | src/components/sections/Testimonials.tsx:94-101 | The filled count is the rating clamped to 0..5, and the filled slots come first. |
| Testimonials.UnratedShowsFive | src/components/sections/Testimonials.tsx:69-101 | A testimonial without a rating shows five filled stars. |
| Testimonials.Quoted | src/components/sections/Testimonials.tsx:112 | The quote between 「 and 」, unchanged. |
| Testimonials.Byline | src/components/sections/Testimonials.tsx:121 | The company, then " / ", then the role, each part intact. |
| Pricing.DisplayPlansMapping | src/components/sections/Pricing.tsx:86-97 | CMS plans one to one and in order. Missing recommendation or price note become "", missing features []. The popular flag is present, true iff set. The button says お見積り. Otherwise the list prop or the built-ins. |
| Pricing.ToPlan | src/components/sections/Pricing.tsx:87-96 | One CMS plan as shown. Stated by DisplayPlansMapping. |
| Pricing.DisplayPlans | src/components/sections/Pricing.tsx:86-97 | `displayPlans`. Stated by DisplayPlansMapping. |
| Pricing.OnlyStandardIsPopular | src/components/sections/Pricing.tsx:20-70 | Of the built-in plans exactly the standard one is popular. |
| Pricing.PopularMarksTogether | src/components/sections/Pricing.tsx:111-155 | Glow card, lift, the 人気No.1 badge and the primary button each appear iff the plan is popular. |
| Pricing.Present | src/components/sections/Pricing.tsx:111-155 | How a plan's card is drawn. Stated by PopularMarksTogether. |
| ClientLogos.DisplayLogosMapping | src/components/sections/ClientLogos.tsx:39-46 | CMS logos one to one and in order as id, name and URL; otherwise the list prop or the eight built-ins. |
| ClientLogos.ToLogo | src/components/sections/ClientLogos.tsx:40-45 | One CMS logo as shown. Stated by DisplayLogosMapping. |
| ClientLogos.DisplayLogos | src/components/sections/ClientLogos.tsx:39-46 | `displayLogos`. Stated by DisplayLogosMapping. |
| ClientLogos.DuplicatedRepeats | src/components/sections/ClientLogos.tsx:49 | The doubled strip is twice as long, and element i equals element i+n. |
| ClientLogos.Duplicated | src/components/sections/ClientLogos.tsx:49 | The doubled strip. Stated by DuplicatedRepeats. |
| ClientLogos.SlideStopsShortOfOneCopy | src/components/sections/ClientLogos.tsx:92-110 | As written, the slide ends at -160 times n px. A drawn copy is n slots of card plus gap, 168 px each, or 208 at md. So a pass ends 8 px (48 px at md) per logo short of one copy, and the first logo's second card stands that far right of where the first logo started. |
| ClientLogos.ScrollTarget | src/components/sections/ClientLogos.tsx:95-97 | The slide's end point as written. Stated by SlideStopsShortOfOneCopy. |
| ClientLogos.DefaultStripJumps | src/components/sections/ClientLogos.tsx:92-110 | With the eight built-in logos the restart jumps 64 px, or 384 px at md. |
| ClientLogos.IntendedScrollTarget | src/components/sections/ClientLogos.tsx:95-97 | The corrected end point, one drawn copy to the left. Stated by IntendedSlideIsOneCopy. |
| ClientLogos.IntendedSlideIsOneCopy | src/components/sections/ClientLogos.tsx:92-110 | Slid by one drawn copy, each card of the second copy ends exactly where the same logo stood at the start, so the loop restarts without a jump. |
| ClientLogos.KeyEndsWithPosition | src/components/sections/ClientLogos.tsx:109 | A key is the id, a hyphen, then the position's numeral. |
| ClientLogos.Key | src/components/sections/ClientLogos.tsx:109 | The React key. Stated by KeyEndsWithPosition, KeysDistinct and StripKeysDistinct. |
| ClientLogos.NoHyphenAfter | src/components/sections/ClientLogos.tsx:109 | No hyphen follows the one before the numeral. |
| ClientLogos.KeysDistinct | src/components/sections/ClientLogos.tsx:107-109 | Keys at different positions differ, whatever the ids. |
| ClientLogos.StripKeysDistinct | src/components/sections/ClientLogos.tsx:107-109 | The keys of the doubled strip are pairwise distinct, though every id occurs twice. |
| ClientLogos.Card | src/components/sections/ClientLogos.tsx:112-125 | One logo card. Stated by StripCardsShowCompanies. |
| ClientLogos.StripCardsShowCompanies | src/components/sections/ClientLogos.tsx:39-125 | CMS record i is shown in slot i and in slot i + n of the doubled strip, alike: its company name always, and its logo image, described by the name, exactly when the record gives a URL. |
| ClientLogos.Heading | src/components/sections/ClientLogos.tsx:75-76 | The two drawn parts put together are the title; the first has at most two characters. |
| Hero.MarkerAt | src/components/sections/Hero.tsx:123 | A marker match lies inside the link, has at least two characters and ends in / or =. |
| Hero.StartsAtLast | src/components/sections/Hero.tsx:123 | A matched marker's last character is the pattern's last. |
| Hero.LineEnd | src/components/sections/Hero.tsx:123 | The first line terminator's position: none before it; the greedy `.*` reaches no further. |
| Hero.LastMarkerFrom | src/components/sections/Hero.tsx:123-124 | The last marker position at or before the bound, with no marker above it (the greedy backtracking); None iff there is none. |
| Hero.RunEnd | src/components/sections/Hero.tsx:123 | The group runs to the first #, & or ?, or to the end. |
| Hero.ExtractYouTubeId | src/components/sections/Hero.tsx:122-126 | An id has exactly eleven characters, none of #, & or ?, and exists only when a marker occurs before the first line break. |
| Hero.Captured | src/components/sections/Hero.tsx:123 | The regular expression's group, if it matches. Stated by ExtractYouTubeId and ShortLinkGroup. |
| Hero.NoMarkerNoId | src/components/sections/Hero.tsx:123-125 | Without a marker before the first line break there is no id. |
| Hero.NoMarkerAfterShortMarker | src/components/sections/Hero.tsx:123 | In a short link no marker starts after the youtu.be/ one. |
| Hero.ShortLinkRoundTrip | src/components/sections/Hero.tsx:122-126 | https://youtu.be/ followed by any eleven id characters gives back exactly that id. |
| Hero.ShortLinkMarker | src/components/sections/Hero.tsx:123 | In a short link the match uses the marker at position 8. |
| Hero.ShortLinkGroup | src/components/sections/Hero.tsx:123 | In a short link the group is the whole id. |
| Hero.LineEndNone | src/components/sections/Hero.tsx:123 | Without line terminators `.*` reaches the end. |
| Hero.RunEndNone | src/components/sections/Hero.tsx:123 | Without stop characters the group reaches the end. |
| Hero.LastMarkerAt | src/components/sections/Hero.tsx:123 | The backward search stops at the highest marker position. |
| Hero.EmbedUrl | src/components/sections/Hero.tsx:164 | The embed address holds the id in the path and again as the playlist value, between the fixed parts. |
| Hero.BackgroundChoice | src/components/sections/Hero.tsx:137-190 | Video iff the type is video and a video URL is given (poster the still image). YouTube iff the type is youtube and the id is recognised, playing that id. Otherwise the still image. |
| Hero.RenderBackground | src/components/sections/Hero.tsx:141-190 | `renderBackground`. Stated by BackgroundChoice and DefaultIsImage. |
| Hero.StillImage | src/components/sections/Hero.tsx:150-185 | `backgroundImageUrl || posterUrl`. Stated by StillImageFallback. |
| Hero.StillImageFallback | src/components/sections/Hero.tsx:150-185 | The background image when given, else the poster, which defaults to the built-in picture. |
| Hero.DefaultIsImage | src/components/sections/Hero.tsx:131-186 | Without a type the background is the still image. |
| Hero.PageHero | src/app/page.tsx:88-95 | With no background type, video, YouTube link or poster, as the home page passes them, the background is the still image: the CMS image, else the built-in poster. |
| Hero.TwoPieceHeadline | src/components/sections/Hero.tsx:193-253 | "a、b" is drawn as "a、" over b, or over the built-in second line when b is empty. |
| Hero.SplitHeadline | src/components/sections/Hero.tsx:193-253 | The two headline lines. Stated by TwoPieceHeadline, OnePieceHeadline and DefaultHeadlineLines. |
| Hero.OnePieceHeadline | src/components/sections/Hero.tsx:193-253 | A headline without 、 is drawn whole with 、 added, over the built-in second line. |
| Hero.DefaultHeadlineLines | src/components/sections/Hero.tsx:250-253 | The built-in headline is drawn as its two sentences. |
| Hero.DefaultHeadlineShape | src/components/sections/Hero.tsx:129 | The built-in headline is its two sentences around one 、. |
| Footer.ContactDetailsFallBack | src/components/layout/Footer.tsx:48-52 | Phone, e-mail and address fall back from the footer record to the settings to the built-in text. Phone note and description fall back from the footer record to the built-in text. None is empty. |
| Footer.FooterOf | src/components/layout/Footer.tsx:43-71 | What the footer shows. Stated by ContactDetailsFallBack, NamesFallBack, LinkColumnsFallBack and PageFooter. |
| Footer.NamesFallBack | src/components/layout/Footer.tsx:47-81 | The site name defaults to LEDビジョンレンタル. The copyright holder and the logo's alt text default to the site name. A logo is shown iff a logo URL is set. |
| Footer.LinkColumnsFallBack | src/components/layout/Footer.tsx:58-71 | The CMS categories iff there is at least one, else the built-in three in a five-column grid; the grid always fits the columns shown. |
| Footer.GridColsRule | src/components/layout/Footer.tsx:64-71 | The grid width never decreases with more columns, is the count plus two for 2 to 5 columns, and lies between 4 and 7. |
| Footer.GridCols | src/components/layout/Footer.tsx:64-71 | The grid width. Stated by GridColsRule. |
| Footer.PageFooter | src/app/page.tsx:107 | As the home page renders it, with the fetched settings (or null when no settings document exists) and no footer record: no logo image, contact details from the settings or built in, the built-in note, description and link columns, the site name as copyright holder. Without settings everything shown is built in. |
| Footer.PhoneLink | src/components/layout/Footer.tsx:103 | The footer's tel: link is the shown number without hyphens, every other character kept. |
| Footer.PhoneLine | src/components/layout/Footer.tsx:107 | The number, then the note in full-width brackets, each intact. |
| Footer.CopyrightLine | src/components/layout/Footer.tsx:148 | ©, the year's numeral, the holder, then ". All rights reserved.", each intact. |
| Js.DigitChar | src/components/sections/Reason.tsx:77 | The digit character of a number below ten. |
| Js.Decimal | src/components/sections/Reason.tsx:77 | `String(n)` is a non-empty numeral, one digit long iff n is below ten. |
| Js.DecimalRoundTrip | src/components/sections/Reason.tsx:77 | Reading back `String(n)` gives n. |
| Js.DecimalInjective | src/components/sections/ClientLogos.tsx:109 | Different numbers have different numerals. |
| Js.LeadingZero | src/components/sections/Reason.tsx:77 | A leading zero keeps a numeral's value. |
| Js.PadStart | src/components/sections/Reason.tsx:77 | The string, right-aligned at the width by the fill, never cut. |
| Js.Ordinal | src/components/sections/Reason.tsx:77 | `String(index + 1).padStart(2, "0")`. Stated by OrdinalValue, OrdinalInjective and OrdinalExamples. |
| Js.OrdinalValue | src/components/sections/Reason.tsx:77 | A numeral of at least two digits whose value is the index plus one; exactly two below 99. |
| Js.DecimalShort | src/components/sections/Reason.tsx:77 | Numbers below 100 have at most two digits. |
| Js.OrdinalInjective | src/components/sections/Reason.tsx:77 | Different positions get different numbers. |
| Js.OrdinalExamples | src/components/sections/Problem.tsx:146 | The first positions print as 01, 02, ..., 09, and the tenth as 10. |
| Js.IndexOfChar | src/components/sections/Problem.tsx:182 | The first position of the character, or the length when absent. |
| Js.IndexOfFrom | src/components/sections/Problem.tsx:187 | The first occurrence at or after the start, or None when there is none. |
| Js.IncludesMeansOccurs | src/components/sections/Problem.tsx:183-189 | `includes` holds iff the pattern occurs at some position. |
| Js.OccurrenceIncluded | src/components/sections/Problem.tsx:183-189 | An occurrence anywhere makes `includes` true. |
| Js.IncludesChar | src/components/sections/Problem.tsx:183 | For one character, `includes` is membership. |
| Js.RemoveAll | src/components/layout/Footer.tsx:103 | The result has no occurrence of the character and is not longer. |
| Js.RemoveAllAbsent | src/components/layout/Footer.tsx:103 | Removing an absent character changes nothing. |
| Js.RemoveAllConcat | src/components/layout/Footer.tsx:103 | Removal distributes over concatenation. |
| Js.RemoveAllIdempotent | src/components/layout/Footer.tsx:103 | Removing twice is removing once. |
| Js.RemoveAllKeepsOthers | src/components/layout/Footer.tsx:103 | Every other character is kept as often as before. |
| Js.Split | src/components/sections/Hero.tsx:193 | `split` gives at least one piece. |
| Js.SplitJoin | src/components/sections/Hero.tsx:193 | Joining the pieces with the separator gives the string back. |
| Js.SplitPiecesFree | src/components/sections/Hero.tsx:193 | No piece contains the separator. |
| Js.SplitFirst | src/components/sections/Problem.tsx:182 | The first piece is everything before the first separator. |
| Js.SplitSecond | src/components/sections/Problem.tsx:187 | When the separator occurs, the second piece follows the first separator up to the next. |
| Js.JoinSplit | src/components/sections/FAQ.tsx:73 | Splitting undoes joining when no part contains the separator. |
| Js.FirstSeparatorAbsent | src/components/sections/Hero.tsx:193 | Without the separator its first position is the length. |
| Js.FirstSeparator | src/components/sections/Hero.tsx:193 | In a + separator + b, with none in a, the first separator is at the length of a. |
| Js.JoinSnoc | src/components/sections/FAQ.tsx:73 | Joining one more part appends the separator and the part. |
| Js.SliceTo | src/components/sections/CaseStudy.tsx:107 | `slice(0, n)` is a prefix of length n, or the whole when shorter. |
| Js.SliceFrom | src/components/sections/UseCases.tsx:207 | `slice(n)` has the remaining length, or none. |
| Js.SliceHalves | src/components/sections/UseCases.tsx:206-207 | The two slices either side of a position make the whole. |

## Left out

- I/O and time: the network, the browser's `fetch`, Resend, `parseBody`'s HMAC check, its three-second wait, and `client.fetch`. Each is an input: a reply, an outcome, a verdict or a thrown value. `Date.now()`, the mail's send time and the footer's current year are parameters or left out. GROQ query strings are left out, and so is every `console` call.
- The zod e-mail regular expression is the predicate `isEmail`. zod's own messages are taken from zod version 3: "Required", "Expected string, received " and the JSON kind, and "Invalid input". The repository's files pin no zod version, and zod 4 words these messages differently. For a union that fails (company name, message), the message is modelled as the field's max-length message for a too-long string, and as a single "Invalid input" otherwise.
- Lengths are counted in characters of `seq<char>`, not in UTF-16 code units as zod and JavaScript count them.
- JavaScript's `null` and `undefined` are both `None`. A property key inherited from `Object.prototype` (such as "constructor") in the `eventTypeLabels` lookup is not modelled; only the five own keys are.
- Testimonials ratings are integers. Fractional and NaN ratings are not modelled.
- The carousel state of the use-case section (Embla's `selectedIndex` and scroll buttons), animations, Tailwind classes and all JSX markup that makes no decision are left out. So are the header and the home page's concurrent fetching and prop wiring; of page.tsx only its ten cache tags are modelled.
- The home page passes the footer only the site settings. The footer record type and the problem section's record type are not declared in src/lib/sanity.ts, so `Footer.FooterData` and `Problem.ProblemSection` list only the members the components read. The footer also reads `logoUrl` and `logoAlt` from the site settings, but `SiteSettings` in src/lib/sanity.ts declares neither and the `siteSettings` query selects neither. `Footer.FooterOf` models the component for any settings record; the logo branch is reachable only with a record the page never fetches. `Footer.PageFooter` states what the home page shows.
- The home page's wiring of the hero and the problem section is not modelled beyond two lemmas. The `hero` query (src/lib/sanity.ts:43-53) and `HeroData` select no `backgroundType`, `backgroundVideoUrl` or `youtubeUrl`, yet page.tsx passes them, so on the page the hero always shows the still image (`Hero.PageHero`). page.tsx passes `problemsData` while the section reads `problemSectionData`, so on the page it always shows its built-in content (`Problem.PageProblem`).
- The hero's `headline` is modelled as a string or missing; a `null` headline is not modelled.
- ContactForm.ContactForm.HandleSubmit: the request between the two halves runs to completion; a second submit or a change made while the request is pending is not modelled.

## Findings

| source | as written | input that shows it | evidently intended | confidence | as-written member | corrected member |
|---|---|---|---|---|---|---|
| src/app/api/contact/route.ts:39-42 | `inquiryType` is read from the validated record. The schema does not declare it, and zod strips undeclared keys, so it is always `undefined` and the subject always says 購入. | An accepted body with `inquiryType: "rental"` is mailed with subject 【LEDビジョンレンタル】新規お問い合わせ（購入）. | A rental enquiry is labelled レンタル. | not executed | ContactRoute.RentalEnquiryMislabelled | ContactRoute.IntendedLabel |
| src/components/sections/ClientLogos.tsx:95 | The strip slides by 160 px per logo. Its cards are `w-36` with a `gap-6` between them, and `md:w-44` with `md:gap-8` from the md breakpoint, under Tailwind's default scale. | The eight built-in logos: a pass ends 64 px (384 px at md) short of one copy, so the strip visibly jumps at each restart. | The slide covers one drawn copy, the card width plus the gap per logo at each breakpoint. | not executed; medium, since the Tailwind configuration is not part of this model and the default scale is assumed | ClientLogos.SlideStopsShortOfOneCopy, ClientLogos.DefaultStripJumps | ClientLogos.IntendedSlideIsOneCopy |
