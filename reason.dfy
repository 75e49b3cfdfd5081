/** The "reasons to choose us" section (src/components/sections/Reason.tsx): the CMS
    reasons numbered by position, with icons cycling through three, or the three
    built-in reasons; cards alternate their layout. */
module Reason {
  import opened Js
  import opened PortableText
  import Cms

  datatype Icon = Award | RefreshCw | PiggyBank

  /** A reason card as displayed. */
  datatype ReasonItem = ReasonItem(icon: Icon, number: string, title: string, description: string, highlights: seq<string>)

  /** A CMS reason record (`ReasonData`), as far as the section reads it. */
  datatype ReasonRecord = ReasonRecord(title: string, description: Option<Content>)

  const DefaultIcons: seq<Icon> := [Award, RefreshCw, PiggyBank]

  const DefaultReasons: seq<ReasonItem> := [
    ReasonItem(Award, "01", "業界15年・累計3,500件の実績と信頼",
      "東証プライム上場企業を含む50社以上との取引実績。大規模展示会から小規模イベントまで、あらゆる規模に対応してきた経験があります。",
      ["15年の実績", "3,500件以上", "上場企業50社以上"]),
    ReasonItem(RefreshCw, "02", "トラブル時の代替機即日対応",
      "万が一の機材トラブル時も、在庫豊富な代替機を即日でお届け。24時間対応のサポート体制で、イベント成功を最後までサポートします。",
      ["即日対応", "24時間サポート", "豊富な在庫"]),
    ReasonItem(PiggyBank, "03", "予算に合わせた柔軟な提案",
      "ご予算と用途をヒアリングし、最適な機材構成をご提案。無駄なコストを省き、費用対効果の高いプランをご用意します。",
      ["明瞭な価格", "柔軟なプラン", "無駄のない提案"])
  ]

  /** One CMS record at position `index`. */
  function ToItem(r: ReasonRecord, index: nat): ReasonItem
  {
    ReasonItem(
      DefaultIcons[index % |DefaultIcons|],
      Ordinal(index),
      r.title,
      ExtractPlainText(OrDefault(r.description, Blocks([]))),
      [])
  }

  /** `displayReasons`, with `reasons` the list prop. */
  function DisplayReasons(reasons: Option<seq<ReasonItem>>, data: Option<seq<ReasonRecord>>): seq<ReasonItem>
  {
    Cms.FromCms(data, ToItem, OrDefault(reasons, DefaultReasons))
  }

  /** CMS reasons are shown one to one and in order: numbered 01, 02, ... by position,
      icons cycling with period three, no highlights, and "" for a missing description;
      without CMS reasons the list prop or the built-ins are shown. */
  lemma DisplayReasonsMapping(reasons: Option<seq<ReasonItem>>, data: Option<seq<ReasonRecord>>)
    ensures var r := DisplayReasons(reasons, data);
      if data.Some? && data.value != [] then
        |r| == |data.value| &&
        forall i :: 0 <= i < |r| ==>
          && r[i].number == Ordinal(i)
          && r[i].icon == DefaultIcons[i % 3]
          && r[i].title == data.value[i].title
          && r[i].highlights == []
          && (data.value[i].description.None? ==> r[i].description == "")
          && (data.value[i].description.Some? ==> r[i].description == ExtractPlainText(data.value[i].description.value))
      else r == OrDefault(reasons, DefaultReasons)
  {
  }

  /** Numbers are distinct, and a card's number reads back as its position. */
  lemma NumbersIdentifyCards(data: seq<ReasonRecord>, i: nat, j: nat)
    requires data != [] && i < |data| && j < |data|
    ensures var r := DisplayReasons(None, Some(data));
      DigitsValue(r[i].number) == i + 1
      && (r[i].number == r[j].number ==> i == j)
  {
    OrdinalValue(i);
    OrdinalInjective(i, j);
  }

  /** The icon rule on positions: period three, and no two neighbours alike. */
  lemma IconPeriod(i: nat)
    ensures DefaultIcons[(i + 3) % 3] == DefaultIcons[i % 3]
    ensures DefaultIcons[(i + 1) % 3] != DefaultIcons[i % 3]
  {
    var q, m := i / 3, i % 3;
    assert i == 3 * q + m;
    assert i + 3 == 3 * (q + 1) + m;
    if m < 2 {
      assert i + 1 == 3 * q + (m + 1);
    } else {
      assert i + 1 == 3 * (q + 1) + 0;
    }
  }

  /** Icons repeat every three cards and neighbours never share one. */
  lemma IconsCycle(data: seq<ReasonRecord>, i: nat)
    requires i + 1 < |data|
    ensures var r := DisplayReasons(None, Some(data));
      (i + 3 < |data| ==> r[i + 3].icon == r[i].icon) && r[i + 1].icon != r[i].icon
  {
    var r := DisplayReasons(None, Some(data));
    assert r[i] == ToItem(data[i], i);
    assert r[i + 1] == ToItem(data[i + 1], i + 1);
    IconPeriod(i);
    if i + 3 < |data| {
      assert r[i + 3] == ToItem(data[i + 3], i + 3);
    }
  }

  /** The built-in reasons follow the same numbering and icon rule as CMS ones. */
  lemma DefaultsFollowTheRule()
    ensures forall i :: 0 <= i < |DefaultReasons| ==>
      DefaultReasons[i].number == Ordinal(i) && DefaultReasons[i].icon == DefaultIcons[i % 3]
  {
    OrdinalExamples();
  }

  /** `index % 2 === 1`: odd positions (the second, fourth, ... card) are laid out with
      the image on the other side. */
  function IsReversed(index: nat): (r: bool)
    ensures r <==> index % 2 == 1
  {
    index % 2 == 1
  }

  /** The layout alternates: neighbouring cards never face the same way. */
  lemma LayoutAlternates(index: nat)
    ensures IsReversed(index + 1) == !IsReversed(index)
    ensures !IsReversed(0)
  {
  }
}
