/** The "common problems" section (src/components/sections/Problem.tsx): the heading
    texts and cards from the CMS section record or the built-ins, a numbered badge per
    card, and the transition sentence split around its first 、 so that the phrase
    "すべて解決" (or the second piece) can be highlighted. */
module Problem {
  import opened Js

  /** A problem card's record (`ProblemItemData`). */
  datatype ProblemItem = ProblemItem(
    title: string,
    description: string,
    backgroundImageUrl: Option<string>,
    backgroundImageAlt: Option<string>)

  /** The CMS section record (`ProblemSectionData`), every member optional. */
  datatype ProblemSection = ProblemSection(
    sectionTitle: Option<string>,
    sectionSubtitle: Option<string>,
    transitionText: Option<string>,
    items: Option<seq<ProblemItem>>)

  const DefaultTitle := "こんなお悩みはありませんか？"
  const DefaultSubtitle := "LEDビジョンの導入には、さまざまな不安がつきものです。"
  const DefaultTransition := "そのお悩み、すべて解決できます。"

  const DefaultItems: seq<ProblemItem> := [
    ProblemItem("機材選びがわからない", "LEDビジョンを使いたいが、何を選べばいいかわからない", Some("/images/problem-1.jpg"), None),
    ProblemItem("当日のトラブルが心配", "機材トラブルが心配で、社内稟議も通しにくい", Some("/images/problem-2.jpg"), None),
    ProblemItem("見積もり取得の時間がない", "複数社に見積もりを取る時間がない", Some("/images/problem-3.jpg"), None),
    ProblemItem("価格が不透明", "価格が不透明で、予算内に収まるか不安", Some("/images/problem-4.jpg"), None),
    ProblemItem("専門用語がわからない", "ルーメン、ピクセルピッチ等の専門用語がわからない", Some("/images/problem-5.jpg"), None),
    ProblemItem("サポート体制が不安", "初めての利用で、サポート体制が気になる", Some("/images/problem-6.jpg"), None)
  ]

  function Title(data: Option<ProblemSection>): string
  {
    Or(if data.Some? then data.value.sectionTitle else None, DefaultTitle)
  }

  function SectionSubtitle(data: Option<ProblemSection>): string
  {
    Or(if data.Some? then data.value.sectionSubtitle else None, DefaultSubtitle)
  }

  function TransitionText(data: Option<ProblemSection>): string
  {
    Or(if data.Some? then data.value.transitionText else None, DefaultTransition)
  }

  /** The CMS items when there is at least one, the six built-ins otherwise. */
  function Items(data: Option<ProblemSection>): seq<ProblemItem>
  {
    if data.Some? && data.value.items.Some? && |data.value.items.value| > 0 then data.value.items.value
    else DefaultItems
  }

  /** Each heading text is the CMS member when it is non-empty and the built-in text
      otherwise, so none is ever empty; the cards are the CMS items if there are any. */
  lemma HeadingsFallBack(data: Option<ProblemSection>)
    ensures Title(data) != "" && SectionSubtitle(data) != "" && TransitionText(data) != ""
    ensures data.Some? && Truthy(data.value.sectionTitle) ==> Title(data) == data.value.sectionTitle.value
    ensures data.Some? && Truthy(data.value.sectionSubtitle) ==> SectionSubtitle(data) == data.value.sectionSubtitle.value
    ensures data.Some? && Truthy(data.value.transitionText) ==> TransitionText(data) == data.value.transitionText.value
    ensures (data.None? || !Truthy(data.value.sectionTitle)) ==> Title(data) == DefaultTitle
    ensures (data.None? || !Truthy(data.value.sectionSubtitle)) ==> SectionSubtitle(data) == DefaultSubtitle
    ensures (data.None? || !Truthy(data.value.transitionText)) ==> TransitionText(data) == DefaultTransition
    ensures Items(data) != []
    ensures data.Some? && data.value.items.Some? && data.value.items.value != [] ==> Items(data) == data.value.items.value
  {
  }

  // ---------------------------------------------------------------------------------
  // Cards

  datatype Image = Image(src: string, alt: string)

  /** A card as rendered: its badge, its background image if any, and its texts. */
  datatype Card = Card(badge: string, image: Option<Image>, title: string, description: string)

  function CardAt(item: ProblemItem, index: nat): Card
  {
    Card(
      Ordinal(index),
      if Truthy(item.backgroundImageUrl)
      then Some(Image(item.backgroundImageUrl.value, Or(item.backgroundImageAlt, item.title)))
      else None,
      item.title,
      item.description)
  }

  function Cards(data: Option<ProblemSection>): (r: seq<Card>)
    ensures |r| == |Items(data)|
  {
    var items := Items(data);
    seq(|items|, i requires 0 <= i < |items| => CardAt(items[i], i))
  }

  /** Card `i` shows item `i` badged with its position (01, 02, ...), carries an image
      exactly when the item has a non-empty image URL, and describes it by the item's
      alternative text or, lacking one, its title. */
  lemma CardsShowItems(data: Option<ProblemSection>, i: nat)
    requires i < |Items(data)|
    ensures var c := Cards(data)[i];
      var item := Items(data)[i];
      && c.title == item.title && c.description == item.description
      && DigitsValue(c.badge) == i + 1
      && (c.image.Some? <==> Truthy(item.backgroundImageUrl))
      && (c.image.Some? ==> c.image.value.src == item.backgroundImageUrl.value)
      && (c.image.Some? && Truthy(item.backgroundImageAlt) ==> c.image.value.alt == item.backgroundImageAlt.value)
      && (c.image.Some? && !Truthy(item.backgroundImageAlt) ==> c.image.value.alt == item.title)
  {
    OrdinalValue(i);
  }

  /** The home page passes the section `problemsData`, but the component reads
      `problemSectionData`, so on the page it always gets nothing and shows its built-in
      title, subtitle, transition sentence and six cards. */
  lemma PageProblem()
    ensures Title(None) == DefaultTitle && SectionSubtitle(None) == DefaultSubtitle
    ensures TransitionText(None) == DefaultTransition && Items(None) == DefaultItems
    ensures |Cards(None)| == 6
  {
    DefaultCards(None);
  }

  /** Without CMS items the six built-in problems are shown, badged 01 to 06, each with
      its own picture. */
  lemma DefaultCards(data: Option<ProblemSection>)
    requires data.None? || data.value.items.None? || data.value.items.value == []
    ensures |Cards(data)| == 6
    ensures forall i :: 0 <= i < 6 ==> Cards(data)[i].image.Some? && Cards(data)[i].image.value.alt == DefaultItems[i].title
  {
  }

  // ---------------------------------------------------------------------------------
  // The transition sentence

  /** The pieces of the transition line: the text before the first 、, whether a 、 is
      shown, the highlighted phrase (none when the text has no 「すべて解決」 and no
      second piece), and whether the trailing 「できます。」 is shown. */
  datatype Transition = Transition(lead: string, comma: bool, highlight: Option<string>, tail: bool)

  const Highlight := "すべて解決"
  const Able := "できます"
  const AbleFull := "できます。"

  function Segment(t: string): Transition
  {
    var parts := Split(t, '、');
    Transition(
      parts[0],
      Includes(t, "、"),
      if Includes(t, Highlight) then Some(Highlight)
      else if |parts| > 1 then Some(ReplaceFirst(parts[1], AbleFull, ""))
      else None,
      Includes(t, Able))
  }

  /** The text the paragraph shows. */
  function Rendered(p: Transition): string
  {
    p.lead + (if p.comma then "、" else "") + (if p.highlight.Some? then p.highlight.value else "")
      + (if p.tail then AbleFull else "")
  }

  /** The lead is the text up to its first 、 (all of it when there is none), the comma
      is shown exactly when the text has one, and "すべて解決" anywhere in the text is
      what gets highlighted. */
  lemma SegmentShape(t: string)
    ensures var p := Segment(t);
      && '、' !in p.lead
      && t[..|p.lead|] == p.lead
      && (p.comma <==> '、' in t)
      && ('、' !in t ==> p.lead == t)
      && ('、' in t ==> t[|p.lead|] == '、')
      && (Includes(t, Highlight) ==> p.highlight == Some(Highlight))
      && (p.tail <==> Includes(t, Able))
  {
    SplitFirst(t, '、');
    IncludesChar(t, '、');
    if '、' !in t {
      FirstSeparatorAbsent(t, '、');
    }
  }

  /** Without "すべて解決", the highlight is the second 、-piece, the text after the
      first 、 up to the next one, with its first "できます。" taken out. */
  lemma SecondPieceHighlighted(t: string)
    requires '、' in t && !Includes(t, Highlight)
    ensures var k := IndexOfChar(t, '、');
      Segment(t).highlight == Some(ReplaceFirst(Split(t[k + 1..], '、')[0], AbleFull, ""))
  {
    SplitSecond(t, '、');
  }

  /** The same rule for a text "a、b" of exactly two pieces: b is lit, less its first
      "できます。". */
  lemma TwoPiecesHighlightSecond(a: string, b: string)
    requires '、' !in a && '、' !in b && !Includes(a + "、" + b, Highlight)
    ensures Segment(a + "、" + b).highlight == Some(ReplaceFirst(b, AbleFull, ""))
  {
    var t := a + "、" + b;
    assert t == a + ['、'] + b;
    FirstSeparator(a, b, '、');
    assert t[|a|] == '、';
    SecondPieceHighlighted(t);
    assert t[|a| + 1..] == b;
    FirstSeparatorAbsent(b, '、');
    SplitFirst(b, '、');
  }

  /** Without 、 and without "すべて解決" nothing is highlighted. */
  lemma NoCommaNoHighlight(t: string)
    requires '、' !in t && !Includes(t, Highlight)
    ensures Segment(t).highlight == None
  {
    FirstSeparatorAbsent(t, '、');
  }

  /** A sentence of the built-in shape, anything without 、 followed by
      「、すべて解決できます。」, is shown exactly as written with "すべて解決" lit. */
  lemma StandardShapeRoundTrip(a: string)
    requires '、' !in a
    ensures var t := a + "、" + Highlight + AbleFull;
      Segment(t) == Transition(a, true, Some(Highlight), true) && Rendered(Segment(t)) == t
  {
    StandardLead(a);
    StandardComma(a);
    StandardPhrases(a);
  }

  lemma StandardLead(a: string)
    requires '、' !in a
    ensures Split(a + "、" + Highlight + AbleFull, '、')[0] == a
  {
    var rest := Highlight + AbleFull;
    var t := a + "、" + Highlight + AbleFull;
    assert t == a + ['、'] + rest;
    FirstSeparator(a, rest, '、');
    SplitFirst(t, '、');
    assert t[..|a|] == a;
  }

  lemma StandardComma(a: string)
    ensures Includes(a + "、" + Highlight + AbleFull, "、")
  {
    var t := a + "、" + Highlight + AbleFull;
    assert t[|a|..|a| + 1] == "、";
    OccurrenceIncluded(t, "、", |a|);
  }

  lemma StandardPhrases(a: string)
    ensures var t := a + "、" + Highlight + AbleFull;
      Includes(t, Highlight) && Includes(t, Able)
  {
    var t := a + "、" + Highlight + AbleFull;
    assert t[|a| + 1..|a| + 6] == Highlight;
    OccurrenceIncluded(t, Highlight, |a| + 1);
    assert t[|a| + 6..|a| + 10] == Able;
    OccurrenceIncluded(t, Able, |a| + 6);
  }

  /** The built-in sentence is shown as written. */
  lemma DefaultTransitionShown()
    ensures Rendered(Segment(DefaultTransition)) == DefaultTransition
  {
    var a := "そのお悩み";
    assert '、' !in a;
    assert DefaultTransition == a + "、" + Highlight + AbleFull;
    StandardShapeRoundTrip(a);
  }

  /** A CMS sentence of two pieces joined by 、 without either key phrase is shown as
      written, the second piece lit. */
  lemma PlainTwoPieces(a: string, b: string)
    requires '、' !in a && '、' !in b
    requires !Includes(a + "、" + b, Highlight) && !Includes(a + "、" + b, Able)
    ensures var t := a + "、" + b;
      Segment(t) == Transition(a, true, Some(b), false) && Rendered(Segment(t)) == t
  {
    var t := a + "、" + b;
    assert t == a + ['、'] + b;
    FirstSeparator(a, b, '、');
    SplitFirst(t, '、');
    assert t[..|a|] == a;
    IncludesChar(t, '、');
    assert t[|a|] == '、';
    SplitSecond(t, '、');
    assert t[|a| + 1..] == b;
    FirstSeparatorAbsent(b, '、');
    SplitFirst(b, '、');
    if IndexOf(b, AbleFull).Some? {
      var k := IndexOf(b, AbleFull).value;
      assert t[|a| + 1 + k..|a| + 1 + k + |Able|] == b[k..k + |AbleFull|][..|Able|];
      assert IsAt(t, Able, |a| + 1 + k);
      IncludesMeansOccurs(t, Able);
      assert false;
    }
  }

  /** A sentence without 、 that contains "すべて解決" shows the phrase a second time
      after it (and "できます。" again when the sentence has it): the line is laid out
      for a 、 and does not check for one. */
  lemma NoCommaRepeatsPhrase(t: string)
    requires '、' !in t && Includes(t, Highlight)
    ensures Rendered(Segment(t)) == t + Highlight + (if Includes(t, Able) then AbleFull else "")
  {
    SegmentShape(t);
  }
}
