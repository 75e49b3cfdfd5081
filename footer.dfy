/** The site footer (src/components/layout/Footer.tsx): each contact detail falls back
    from the footer record to the site settings to a built-in text, the link columns
    are the CMS categories or the built-in three, and the width of the grid follows the
    number of columns. The year in the copyright line is an input. */
module Footer {
  import opened Js
  import Sanity
  import ContactForm

  datatype Link = Link(caption: string, href: string)

  /** A column of links; its list may be missing. */
  datatype LinkCategory = LinkCategory(title: string, links: Option<seq<Link>>)

  /** The CMS footer record (`FooterData`), as far as the footer reads it. */
  datatype FooterData = FooterData(
    phone: Option<string>,
    phoneNote: Option<string>,
    email: Option<string>,
    address: Option<string>,
    companyDescription: Option<string>,
    copyright: Option<string>,
    linkCategories: Option<seq<LinkCategory>>)

  const DefaultSiteName := "LEDビジョンレンタル"
  const DefaultPhone := "0120-XXX-XXX"
  const DefaultPhoneNote := "平日 11:00〜19:00"
  const DefaultEmail := "info@example.com"
  const DefaultAddress := "〒XXX-XXXX\n東京都渋谷区XXX X-X-X"
  const DefaultDescription := "業界15年・累計3,500件の実績。展示会・イベントのLEDビジョンレンタルなら、トラブル対応も万全の当社にお任せください。"

  const DefaultLinkCategories: seq<LinkCategory> := [
    LinkCategory("サービス", Some([
      Link("LEDビジョンレンタル", "#"), Link("設置・撤去サービス", "#"),
      Link("映像制作", "#"), Link("技術サポート", "#")])),
    LinkCategory("会社情報", Some([
      Link("会社概要", "#"), Link("導入事例", "#case-study"),
      Link("お客様の声", "#testimonials"), Link("採用情報", "#")])),
    LinkCategory("サポート", Some([
      Link("よくある質問", "#faq"), Link("お問い合わせ", "#cta"),
      Link("プライバシーポリシー", "#"), Link("利用規約", "#")]))
  ]

  /** The logo image, when the settings give a URL. */
  datatype Logo = Logo(url: string, alt: string)

  /** Everything the footer shows that depends on its data. */
  datatype FooterView = FooterView(
    siteName: string,
    phone: string,
    phoneNote: string,
    email: string,
    address: string,
    companyDescription: string,
    copyright: string,
    logo: Option<Logo>,
    linkCategories: seq<LinkCategory>,
    gridCols: nat)

  /** `a?.x || b?.y || fallback`, the shape of every chain below. */
  function Chain(first: Option<string>, second: Option<string>, fallback: string): (r: string)
    ensures Truthy(first) ==> r == first.value
    ensures !Truthy(first) && Truthy(second) ==> r == second.value
    ensures !Truthy(first) && !Truthy(second) ==> r == fallback
  {
    Or(first, Or(second, fallback))
  }

  /** The number of large-screen grid columns for a count of link columns. */
  function GridCols(count: nat): nat
  {
    if count <= 2 then 4 else if count == 3 then 5 else if count == 4 then 6 else 7
  }

  function FooterOf(settings: Option<Sanity.SiteSettings>, data: Option<FooterData>): FooterView
  {
    var s := settings;
    var siteName := Or(if s.Some? then s.value.siteName else None, DefaultSiteName);
    var categories :=
      if data.Some? && data.value.linkCategories.Some? && |data.value.linkCategories.value| > 0
      then data.value.linkCategories.value else DefaultLinkCategories;
    var logoUrl := if s.Some? then s.value.logoUrl else None;
    FooterView(
      siteName,
      Chain(if data.Some? then data.value.phone else None, if s.Some? then s.value.contactPhone else None, DefaultPhone),
      Or(if data.Some? then data.value.phoneNote else None, DefaultPhoneNote),
      Chain(if data.Some? then data.value.email else None, if s.Some? then s.value.contactEmail else None, DefaultEmail),
      Chain(if data.Some? then data.value.address else None, if s.Some? then s.value.companyAddress else None, DefaultAddress),
      Or(if data.Some? then data.value.companyDescription else None, DefaultDescription),
      Or(if data.Some? then data.value.copyright else None, siteName),
      if Truthy(logoUrl) then Some(Logo(logoUrl.value, Or(if s.Some? then s.value.logoAlt else None, siteName))) else None,
      categories,
      GridCols(|categories|))
  }

  /** Phone, e-mail and address come from the footer record, else the site settings,
      else the built-in text; the phone note and the description from the footer
      record, else the built-in text. */
  lemma ContactDetailsFallBack(settings: Option<Sanity.SiteSettings>, data: Option<FooterData>)
    ensures var v := FooterOf(settings, data);
      && v.phone == Chain(if data.Some? then data.value.phone else None, if settings.Some? then settings.value.contactPhone else None, DefaultPhone)
      && v.email == Chain(if data.Some? then data.value.email else None, if settings.Some? then settings.value.contactEmail else None, DefaultEmail)
      && v.address == Chain(if data.Some? then data.value.address else None, if settings.Some? then settings.value.companyAddress else None, DefaultAddress)
      && (data.Some? && Truthy(data.value.phoneNote) ==> v.phoneNote == data.value.phoneNote.value)
      && (!(data.Some? && Truthy(data.value.phoneNote)) ==> v.phoneNote == DefaultPhoneNote)
      && (data.Some? && Truthy(data.value.companyDescription) ==> v.companyDescription == data.value.companyDescription.value)
      && (!(data.Some? && Truthy(data.value.companyDescription)) ==> v.companyDescription == DefaultDescription)
      && v.phone != "" && v.email != "" && v.address != ""
  {
  }

  /** The site name defaults to the business name; the copyright holder and the logo's
      alternative text each default to the site name; a logo is shown exactly when the
      settings give a logo URL. */
  lemma NamesFallBack(settings: Option<Sanity.SiteSettings>, data: Option<FooterData>)
    ensures var v := FooterOf(settings, data);
      && (settings.Some? && Truthy(settings.value.siteName) ==> v.siteName == settings.value.siteName.value)
      && (!(settings.Some? && Truthy(settings.value.siteName)) ==> v.siteName == DefaultSiteName)
      && (data.Some? && Truthy(data.value.copyright) ==> v.copyright == data.value.copyright.value)
      && (!(data.Some? && Truthy(data.value.copyright)) ==> v.copyright == v.siteName)
      && (v.logo.Some? <==> settings.Some? && Truthy(settings.value.logoUrl))
      && (v.logo.Some? && Truthy(settings.value.logoAlt) ==> v.logo.value.alt == settings.value.logoAlt.value)
      && (v.logo.Some? && !Truthy(settings.value.logoAlt) ==> v.logo.value.alt == v.siteName)
      && v.siteName != "" && v.copyright != ""
  {
  }

  /** The link columns are the CMS categories exactly when there is at least one, and
      the built-in three otherwise; the grid is sized for the columns shown. */
  lemma LinkColumnsFallBack(settings: Option<Sanity.SiteSettings>, data: Option<FooterData>)
    ensures var v := FooterOf(settings, data);
      && (data.Some? && data.value.linkCategories.Some? && data.value.linkCategories.value != [] ==>
            v.linkCategories == data.value.linkCategories.value)
      && (!(data.Some? && data.value.linkCategories.Some? && data.value.linkCategories.value != []) ==>
            v.linkCategories == DefaultLinkCategories && v.gridCols == 5)
      && v.gridCols == GridCols(|v.linkCategories|)
  {
  }

  /** More link columns never make the grid narrower; from two to five columns the
      grid has exactly two more columns than there are link columns (the company block
      spans the other two), and never fewer than four or more than seven. */
  lemma GridColsRule(m: nat, n: nat)
    ensures m <= n ==> GridCols(m) <= GridCols(n)
    ensures 2 <= n <= 5 ==> GridCols(n) == n + 2
    ensures 4 <= GridCols(n) <= 7
  {
  }

  /** The home page hands the footer the fetched site settings, which are null when no
      settings document exists, and no footer record. So it always draws the placeholder
      mark, never a logo image, and every detail that would come from the footer record
      is the settings' or the built-in one; without settings everything is built in. */
  lemma PageFooter(settings: Option<Sanity.SiteSettings>)
    requires settings.Some? ==> Sanity.Fetched(settings.value)
    ensures var v := FooterOf(settings, None);
      var s := settings;
      && v.logo.None?
      && v.siteName == Or(if s.Some? then s.value.siteName else None, DefaultSiteName)
      && v.phone == Or(if s.Some? then s.value.contactPhone else None, DefaultPhone)
      && v.email == Or(if s.Some? then s.value.contactEmail else None, DefaultEmail)
      && v.address == Or(if s.Some? then s.value.companyAddress else None, DefaultAddress)
      && v.phoneNote == DefaultPhoneNote && v.companyDescription == DefaultDescription
      && v.copyright == v.siteName && v.linkCategories == DefaultLinkCategories
    ensures settings.None? ==> FooterOf(settings, None) == FooterView(
      DefaultSiteName, DefaultPhone, DefaultPhoneNote, DefaultEmail, DefaultAddress,
      DefaultDescription, DefaultSiteName, None, DefaultLinkCategories, 5)
  {
  }

  /** The phone link dials the shown number without its hyphens. */
  lemma PhoneLink(settings: Option<Sanity.SiteSettings>, data: Option<FooterData>)
    ensures var phone := FooterOf(settings, data).phone;
      var href := ContactForm.TelHref(phone);
      && href[..4] == "tel:"
      && '-' !in href[4..]
      && forall c :: c != '-' ==> multiset(href[4..])[c] == multiset(phone)[c]
  {
    ContactForm.TelHrefDigits(FooterOf(settings, data).phone);
  }

  /** The phone line: the number with its note in full-width brackets. */
  function PhoneLine(phone: string, note: string): (r: string)
    ensures |r| == |phone| + |note| + 2
    ensures r[..|phone|] == phone && r[|phone|] == '（' && r[|phone| + 1..|r| - 1] == note && r[|r| - 1] == '）'
  {
    phone + "（" + note + "）"
  }

  /** The copyright line for the current year. */
  function CopyrightLine(year: nat, holder: string): (r: string)
    ensures var p := "© " + Decimal(year) + " ";
      && |r| == |p| + |holder| + |". All rights reserved."|
      && r[..|p|] == p && r[|p|..|p| + |holder|] == holder
      && r[|p| + |holder|..] == ". All rights reserved."
  {
    "© " + Decimal(year) + " " + holder + ". All rights reserved."
  }
}
