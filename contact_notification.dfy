/** The notification e-mail sent for each accepted enquiry (`ContactNotificationEmail`):
    a heading, then a fixed four-row table (company, name, e-mail, message) in which an
    empty company name or message is shown as the placeholder "（未入力）", then a note on
    where the mail came from. The send time printed under that note is left out. */
module ContactNotification {
  import opened Js

  /** The four declared props; nothing else (`inquiryType` in particular) is rendered. */
  datatype Props = Props(companyName: string, name: string, email: string, message: string)

  /** A value cell: plain text, or a link with its `href` and its text. */
  datatype Cell = Text(text: string) | MailLink(href: string, text: string)

  datatype Row = Row(caption: string, cell: Cell)

  datatype Email = Email(heading: string, rows: seq<Row>, origin: string)

  const Placeholder := "（未入力）"
  const Heading := "新規お問い合わせ"
  const Origin := "このメールはLEDビジョンレンタルのお問い合わせフォームから送信されました。"

  const CompanyLabel := "会社名"
  const NameLabel := "お名前"
  const EmailLabel := "メールアドレス"
  const MessageLabel := "ご相談内容"

  /** `text || "（未入力）"` */
  function OrPlaceholder(text: string): string
  {
    if text == "" then Placeholder else text
  }

  function Render(p: Props): (e: Email)
    ensures e.heading == Heading && |e.rows| == 4
    ensures e.rows[0].caption == CompanyLabel && e.rows[1].caption == NameLabel
    ensures e.rows[2].caption == EmailLabel && e.rows[3].caption == MessageLabel
  {
    Email(
      Heading,
      [ Row(CompanyLabel, Text(OrPlaceholder(p.companyName))),
        Row(NameLabel, Text(p.name)),
        Row(EmailLabel, MailLink("mailto:" + p.email, p.email)),
        Row(MessageLabel, Text(OrPlaceholder(p.message))) ],
      Origin)
  }

  /** Reads the props back off a rendered table, taking the placeholder to mean "empty". */
  function Recover(e: Email): Option<Props>
  {
    if |e.rows| == 4 && e.rows[0].cell.Text? && e.rows[1].cell.Text? && e.rows[2].cell.MailLink?
       && e.rows[3].cell.Text?
    then
      var company := e.rows[0].cell.text;
      var message := e.rows[3].cell.text;
      Some(Props(
        if company == Placeholder then "" else company,
        e.rows[1].cell.text,
        e.rows[2].cell.text,
        if message == Placeholder then "" else message))
    else None
  }

  /** Every row shows what was submitted: the props can be read back from the mail as
      long as no optional field was literally the placeholder text. */
  lemma RenderRecover(p: Props)
    requires p.companyName != Placeholder && p.message != Placeholder
    ensures Recover(Render(p)) == Some(p)
  {
  }

  /** The placeholder is ambiguous: an empty company name and one that reads "（未入力）"
      produce the same mail (and likewise for the message). */
  lemma PlaceholderAmbiguous(p: Props)
    ensures Render(p.(companyName := "")) == Render(p.(companyName := Placeholder))
    ensures Render(p.(message := "")) == Render(p.(message := Placeholder))
  {
  }

  /** Empty optional fields show the placeholder; non-empty ones are shown verbatim. */
  lemma OptionalCells(p: Props)
    ensures Render(p).rows[0].cell == Text(if p.companyName == "" then Placeholder else p.companyName)
    ensures Render(p).rows[3].cell == Text(if p.message == "" then Placeholder else p.message)
  {
  }

  /** The name is shown verbatim, with no placeholder even when empty, and the e-mail
      address appears both as the link text and as its `mailto:` target. */
  lemma RequiredCells(p: Props)
    ensures Render(p).rows[1].cell == Text(p.name)
    ensures Render(p).rows[2].cell.MailLink?
    ensures Render(p).rows[2].cell.text == p.email
    ensures Render(p).rows[2].cell.href == "mailto:" + p.email
  {
  }
}
