/** The client-logo strip (src/components/sections/ClientLogos.tsx): the CMS logos or the
    built-in eight, drawn twice in a row and slid left by 160 px per logo, then restarted;
    each drawn card is keyed by its id and its position. The slide is shorter than one
    drawn copy, so the restart jumps (`SlideStopsShortOfOneCopy`); `IntendedScrollTarget`
    is the slide by one copy that loops without a jump. */
module ClientLogos {
  import opened Js
  import Cms
  import SectionTitle

  /** A logo as displayed. */
  datatype ClientLogo = ClientLogo(id: string, name: string, logoUrl: Option<string>)

  /** A CMS logo record (`ClientLogoData`), as far as the section reads it. */
  datatype ClientLogoRecord = ClientLogoRecord(id: string, companyName: string, logoUrl: Option<string>)

  const DefaultTitle := "主要取引先"

  const DefaultLogos: seq<ClientLogo> := [
    ClientLogo("1", "企業A", None), ClientLogo("2", "企業B", None),
    ClientLogo("3", "企業C", None), ClientLogo("4", "企業D", None),
    ClientLogo("5", "企業E", None), ClientLogo("6", "企業F", None),
    ClientLogo("7", "企業G", None), ClientLogo("8", "企業H", None)
  ]

  function ToLogo(c: ClientLogoRecord, index: nat): ClientLogo
  {
    ClientLogo(c.id, c.companyName, c.logoUrl)
  }

  /** `displayLogos`, with `logos` the list prop. */
  function DisplayLogos(logos: Option<seq<ClientLogo>>, data: Option<seq<ClientLogoRecord>>): seq<ClientLogo>
  {
    Cms.FromCms(data, ToLogo, OrDefault(logos, DefaultLogos))
  }

  /** A non-empty CMS list is shown one to one and in order, as its id, company name
      and logo URL; otherwise the list prop or the built-ins. */
  lemma DisplayLogosMapping(logos: Option<seq<ClientLogo>>, data: Option<seq<ClientLogoRecord>>)
    ensures var r := DisplayLogos(logos, data);
      if data.Some? && data.value != [] then
        |r| == |data.value| &&
        forall i :: 0 <= i < |r| ==>
          r[i] == ClientLogo(data.value[i].id, data.value[i].companyName, data.value[i].logoUrl)
      else r == OrDefault(logos, DefaultLogos)
  {
  }

  /** `[...displayLogos, ...displayLogos]` */
  function Duplicated(logos: seq<ClientLogo>): seq<ClientLogo>
  {
    logos + logos
  }

  /** The doubled strip is twice as long and repeats with period `n`: shifted by one
      copy it shows the same logos. */
  lemma DuplicatedRepeats(logos: seq<ClientLogo>)
    ensures |Duplicated(logos)| == 2 * |logos|
    ensures forall i :: 0 <= i < |logos| ==>
      Duplicated(logos)[i] == logos[i] && Duplicated(logos)[i + |logos|] == logos[i]
  {
  }

  /** A card's drawn width in pixels: `w-36` below the `md` breakpoint, `md:w-44` from it
      (Tailwind's default scale, 4 px per unit). */
  function CardWidth(md: bool): nat
  {
    if md then 176 else 144
  }

  /** The flex gap between neighbouring cards: `gap-6`, or `md:gap-8`. */
  function GapWidth(md: bool): nat
  {
    if md then 32 else 24
  }

  /** The distance from one card's left edge to the next one's: card plus gap. */
  function DrawnSlot(md: bool): nat
  {
    CardWidth(md) + GapWidth(md)
  }

  /** The left edge of card `k` of the strip when the strip stands at offset `x`. */
  function CardLeft(md: bool, k: nat, x: int): int
  {
    x + k * DrawnSlot(md)
  }

  /** The offset per logo the animation moves the strip by. */
  const StepPerLogo := 160

  /** The end point of the slide as written: `-160 * displayLogos.length`. */
  function ScrollTarget(logos: seq<ClientLogo>): int
  {
    -StepPerLogo * |logos|
  }

  /** As written, the slide ends 8 px per logo (48 px from `md`) short of one drawn copy:
      at the end of a pass the first card of the second copy, which shows the first logo,
      stands that far right of where the first logo stood at the start, and the restart
      makes the strip jump back by that distance. */
  lemma SlideStopsShortOfOneCopy(logos: seq<ClientLogo>, md: bool)
    requires logos != []
    ensures ScrollTarget(logos) < 0
    ensures -ScrollTarget(logos) < DrawnSlot(md) * |logos|
    ensures Duplicated(logos)[|logos|] == Duplicated(logos)[0]
    ensures CardLeft(md, |logos|, ScrollTarget(logos)) - CardLeft(md, 0, 0)
      == (DrawnSlot(md) - StepPerLogo) * |logos| > 0
  {
    DuplicatedRepeats(logos);
  }

  /** With the eight built-in logos the jump is 64 px, or 384 px from `md`. */
  lemma DefaultStripJumps()
    ensures CardLeft(false, |DefaultLogos|, ScrollTarget(DefaultLogos)) == 64
    ensures CardLeft(true, |DefaultLogos|, ScrollTarget(DefaultLogos)) == 384
  {
  }

  /** The end point that slides by exactly one drawn copy. */
  function IntendedScrollTarget(logos: seq<ClientLogo>, md: bool): int
  {
    var copyWidth: int := DrawnSlot(md) * |logos|;
    -copyWidth
  }

  /** Slid by one drawn copy, every card of the second copy ends exactly where the same
      logo stood at the start, so the restart is invisible. */
  lemma IntendedSlideIsOneCopy(logos: seq<ClientLogo>, md: bool, k: nat)
    requires k < |logos|
    ensures IntendedScrollTarget(logos, md) < 0
    ensures Duplicated(logos)[k + |logos|] == Duplicated(logos)[k]
    ensures CardLeft(md, k + |logos|, IntendedScrollTarget(logos, md)) == CardLeft(md, k, 0)
  {
    DuplicatedRepeats(logos);
    var s := DrawnSlot(md);
    assert (k + |logos|) * s == k * s + |logos| * s;
  }

  /** The React key of the card at `index`: `${id}-${index}`. */
  function Key(id: string, index: nat): string
  {
    id + "-" + Decimal(index)
  }

  /** A key ends with its position's numeral, right after a hyphen. */
  lemma KeyEndsWithPosition(id: string, index: nat)
    ensures var k := Key(id, index);
      var d := Decimal(index);
      |k| == |id| + 1 + |d| && k[|id|] == '-' && k[|id| + 1..] == d
  {
  }

  /** No hyphen follows that one. */
  lemma NoHyphenAfter(id: string, index: nat, m: int)
    requires |id| < m < |Key(id, index)|
    ensures Key(id, index)[m] != '-'
  {
    var d := Decimal(index);
    assert Key(id, index)[m] == d[m - |id| - 1];
  }

  /** Keys at different positions differ, whatever the ids, even when ids repeat (as
      they do in the doubled strip) or contain hyphens: the text after a key's last
      hyphen is its position. */
  lemma KeysDistinct(a: string, i: nat, b: string, j: nat)
    requires i != j
    ensures Key(a, i) != Key(b, j)
  {
    if Key(a, i) == Key(b, j) {
      KeyEndsWithPosition(a, i);
      KeyEndsWithPosition(b, j);
      if |a| == |b| {
        DecimalInjective(i, j);
      } else if |a| < |b| {
        NoHyphenAfter(a, i, |b|);
        assert false;
      } else {
        NoHyphenAfter(b, j, |a|);
        assert false;
      }
    }
  }

  /** The keys of the doubled strip are pairwise distinct. */
  lemma StripKeysDistinct(logos: seq<ClientLogo>, i: nat, j: nat)
    requires i < j < |Duplicated(logos)|
    ensures Key(Duplicated(logos)[i].id, i) != Key(Duplicated(logos)[j].id, j)
  {
    KeysDistinct(Duplicated(logos)[i].id, i, Duplicated(logos)[j].id, j);
  }

  /** A card shows the logo image described by the company's name when there is a
      non-empty URL, and otherwise a placeholder with the name. */
  datatype LogoCard = LogoImage(src: string, alt: string) | NamePlaceholder(name: string)

  function Card(logo: ClientLogo): (c: LogoCard)
    ensures c.LogoImage? <==> Truthy(logo.logoUrl)
    ensures c.LogoImage? ==> c.src == logo.logoUrl.value && c.alt == logo.name
    ensures c.NamePlaceholder? ==> c.name == logo.name
  {
    if Truthy(logo.logoUrl) then LogoImage(logo.logoUrl.value, logo.name) else NamePlaceholder(logo.name)
  }

  /** Every card of the doubled strip built from CMS logos shows its company's name,
      and its logo image exactly when the record gives a URL: record `i` is shown in
      slot `i` of the first copy and slot `i + n` of the second. */
  lemma StripCardsShowCompanies(logos: Option<seq<ClientLogo>>, data: Option<seq<ClientLogoRecord>>, i: nat)
    requires data.Some? && i < |data.value|
    ensures var strip := Duplicated(DisplayLogos(logos, data));
      var c := data.value[i];
      var n := |data.value|;
      && |strip| == 2 * n
      && Card(strip[i]) == Card(strip[i + n])
      && (Card(strip[i]).LogoImage? <==> Truthy(c.logoUrl))
      && (Truthy(c.logoUrl) ==> Card(strip[i]) == LogoImage(c.logoUrl.value, c.companyName))
      && (!Truthy(c.logoUrl) ==> Card(strip[i]) == NamePlaceholder(c.companyName))
  {
    var shown := DisplayLogos(logos, data);
    DisplayLogosMapping(logos, data);
    assert shown[i] == ClientLogo(data.value[i].id, data.value[i].companyName, data.value[i].logoUrl);
    DuplicatedRepeats(shown);
  }

  /** The heading: the title prop (missing means the built-in title) with its first two
      characters highlighted; the two parts put together are the whole title. */
  function Heading(title: Option<string>): (r: SectionTitle.TitleParts)
    ensures r.highlighted + r.rest == OrDefault(title, DefaultTitle)
    ensures |r.highlighted| == if |OrDefault(title, DefaultTitle)| < 2 then |OrDefault(title, DefaultTitle)| else 2
  {
    SectionTitle.TitlePartsJoin(OrDefault(title, DefaultTitle));
    SectionTitle.SplitTitle(OrDefault(title, DefaultTitle))
  }
}
