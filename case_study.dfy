/** The case-study section (src/components/sections/CaseStudy.tsx): the CMS records
    converted one to one (the event type shown by its Japanese label), or the built-in
    three; the first two fill a grid and the third a full-width card. */
module CaseStudy {
  import opened Js
  import Cms

  /** A case study as displayed. */
  datatype CaseStudyItem = CaseStudyItem(
    id: string,
    title: string,
    company: string,
    industry: string,
    location: string,
    date: string,
    description: string,
    imageUrl: string,
    results: seq<string>)

  /** A CMS case-study record (`CaseStudyData`), as far as the section reads it; of each
      image only the URL is read, and an image may lack one. */
  datatype CaseStudyRecord = CaseStudyRecord(
    id: string,
    clientName: string,
    industry: Option<string>,
    eventType: Option<string>,
    summary: Option<string>,
    images: Option<seq<Option<string>>>)

  const DefaultCaseStudies: seq<CaseStudyItem> := [
    CaseStudyItem("1", "大規模展示会でのブランディング強化", "株式会社XXX", "製造業", "東京ビッグサイト", "2024年10月",
      "ブース全面にLEDビジョンを設置し、ダイナミックな製品紹介を実現。来場者の注目を集め、名刺交換数が前年比150%に。",
      "/images/case-study-1.jpg", ["来場者数 前年比150%", "商談数 80件獲得", "メディア掲載 5社"]),
    CaseStudyItem("2", "新製品発表会での演出効果最大化", "△△株式会社", "IT・テクノロジー", "品川インターシティホール", "2024年9月",
      "ステージ背面の大型LEDと両サイドのサブビジョンで、製品の魅力を多角的にアピール。参加者満足度95%を達成。",
      "/images/case-study-2.jpg", ["満足度 95%", "SNS投稿 1,200件", "動画再生 50万回"]),
    CaseStudyItem("3", "音楽フェス会場でのステージ演出", "○○エンターテインメント", "エンターテインメント", "幕張メッセ", "2024年8月",
      "メインステージに超大型LEDビジョンを設置。リアルタイム映像とエフェクトで、圧倒的な没入感を提供。",
      "/images/case-study-3.jpg", ["動員数 30,000人", "公式動画再生 200万回", "リピート決定"])
  ]

  /** The Japanese labels of the five event types the CMS offers. */
  const EventTypeLabels: map<string, string> := map[
    "exhibition" := "展示会",
    "live" := "ライブ・コンサート",
    "signage" := "デジタルサイネージ",
    "corporate" := "企業イベント",
    "other" := "その他"
  ]

  /** `eventTypeLabels[eventType || ""] || eventType || ""` */
  function Location(eventType: Option<string>): string
  {
    var key := Or(eventType, "");
    if key in EventTypeLabels && EventTypeLabels[key] != "" then EventTypeLabels[key] else Or(eventType, "")
  }

  /** A known event type is shown by its label, any other by itself, and none as "". */
  lemma LocationLabels(eventType: Option<string>)
    ensures Truthy(eventType) && eventType.value in EventTypeLabels ==>
      Location(eventType) == EventTypeLabels[eventType.value]
    ensures Truthy(eventType) && eventType.value !in EventTypeLabels ==> Location(eventType) == eventType.value
    ensures !Truthy(eventType) ==> Location(eventType) == ""
  {
    assert "" !in EventTypeLabels;
  }

  function ToItem(c: CaseStudyRecord, index: nat): CaseStudyItem
  {
    CaseStudyItem(
      c.id,
      Or(c.summary, c.clientName),
      c.clientName,
      Or(c.industry, ""),
      Location(c.eventType),
      "",
      Or(c.summary, ""),
      if c.images.Some? && |c.images.value| > 0 then Or(c.images.value[0], "") else "",
      [])
  }

  /** `displayCaseStudies`, with `caseStudies` the list prop. */
  function DisplayCaseStudies(caseStudies: Option<seq<CaseStudyItem>>, data: Option<seq<CaseStudyRecord>>): seq<CaseStudyItem>
  {
    Cms.FromCms(data, ToItem, OrDefault(caseStudies, DefaultCaseStudies))
  }

  /** A non-empty CMS list is shown one to one and in order: titled by its summary or,
      lacking one, the client's name; placed by its event type's label; pictured by its
      first image (or none); with no date and no results. Otherwise the list prop or
      the built-ins. */
  lemma DisplayCaseStudiesMapping(caseStudies: Option<seq<CaseStudyItem>>, data: Option<seq<CaseStudyRecord>>)
    ensures var r := DisplayCaseStudies(caseStudies, data);
      if data.Some? && data.value != [] then
        |r| == |data.value| &&
        forall i :: 0 <= i < |r| ==>
          var c := data.value[i];
          && r[i].id == c.id && r[i].company == c.clientName
          && (Truthy(c.summary) ==> r[i].title == c.summary.value && r[i].description == c.summary.value)
          && (!Truthy(c.summary) ==> r[i].title == c.clientName && r[i].description == "")
          && r[i].location == Location(c.eventType)
          && r[i].date == "" && r[i].results == []
          && (c.images.Some? && c.images.value != [] && Truthy(c.images.value[0]) ==> r[i].imageUrl == c.images.value[0].value)
          && (!(c.images.Some? && c.images.value != [] && Truthy(c.images.value[0])) ==> r[i].imageUrl == "")
      else r == OrDefault(caseStudies, DefaultCaseStudies)
  {
  }

  /** What the section draws: up to two grid cards, and a full-width card when there
      is a third case. */
  datatype Layout = Layout(grid: seq<CaseStudyItem>, featured: Option<CaseStudyItem>)

  function Arrange(items: seq<CaseStudyItem>): Layout
  {
    Layout(SliceTo(items, 2), if |items| > 2 then Some(items[2]) else None)
  }

  /** The grid holds the first two cases in order and the wide card the third; a case
      is shown exactly when it is among the first three, and each only once. */
  lemma TwoPlusOne(items: seq<CaseStudyItem>)
    ensures var l := Arrange(items);
      && l.grid == items[..if |items| < 2 then |items| else 2]
      && (l.featured.Some? <==> |items| >= 3)
      && (l.featured.Some? ==> l.featured.value == items[2])
      && |l.grid| + (if l.featured.Some? then 1 else 0) == if |items| < 3 then |items| else 3
  {
  }
}
