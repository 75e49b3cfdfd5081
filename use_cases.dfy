/** The use-case carousel (src/components/sections/UseCases.tsx): the cases shown (the CMS
    list converted one to one, or the built-in six) and the title drawn in two parts. The
    carousel's scroll state is not part of this model. */
module UseCases {
  import opened Js
  import opened PortableText
  import Cms
  import SectionTitle

  /** A use case as displayed. */
  datatype UseCase = UseCase(
    id: string,
    title: string,
    description: string,
    features: seq<string>,
    recommendedSize: string,
    budget: string)

  /** One recommended equipment entry of a CMS record; every member optional. */
  datatype Equipment = Equipment(name: Option<string>, spec: Option<string>, note: Option<string>)

  /** A CMS use-case record (`UseCaseData`), as far as the section reads it. */
  datatype UseCaseRecord = UseCaseRecord(
    id: string,
    tabLabel: string,
    description: Option<Content>,
    recommendedEquipment: Option<seq<Equipment>>)

  const DefaultTitle := "用途別提案"
  const DefaultSubtitle := "ご利用シーンに合わせて、最適なプランをご提案します。"

  const DefaultUseCases: seq<UseCase> := [
    UseCase("exhibition", "展示会・見本市",
      "ブース全体のインパクトを高め、来場者の注目を集めます。競合との差別化に効果的です。",
      ["高輝度で明るい会場でも鮮明", "カスタムサイズ対応", "設営撤去サポート付き"],
      "2m × 3m 〜", "1日 ¥150,000〜"),
    UseCase("event", "イベント・コンサート",
      "ステージ演出を最大化し、観客の没入感を高めます。大規模なイベントにも対応可能です。",
      ["超大型サイズ対応", "リアルタイム映像連携", "特殊形状も相談可"],
      "4m × 6m 〜", "1日 ¥300,000〜"),
    UseCase("corporate", "企業説明会・株主総会",
      "プレゼンテーションの説得力を高め、参加者の理解度を向上させます。",
      ["高解像度で資料も鮮明", "音響機材セット可能", "控えめな設置対応"],
      "1.5m × 2.5m 〜", "1日 ¥80,000〜"),
    UseCase("advertisement", "広告・プロモーション",
      "屋外・屋内問わず、高い視認性で効果的な広告展開を実現します。",
      ["屋外対応モデルあり", "24時間稼働対応", "コンテンツ制作相談可"],
      "サイズ応相談", "月額 ¥200,000〜"),
    UseCase("retail", "店舗・商業施設",
      "来店客の目を引き、購買意欲を高める演出を実現します。",
      ["スリムタイプ対応", "省電力モデルあり", "長期レンタル割引"],
      "設置場所に応じて", "1日 ¥50,000〜"),
    UseCase("education", "教育・研修",
      "大人数での視認性を確保し、学習効果を高めます。",
      ["持ち運び可能なモデル", "簡単セットアップ", "教育機関割引"],
      "1m × 2m 〜", "1日 ¥40,000〜")
  ]

  /** `recommendedEquipment?.map(e => e.name || "") || []` */
  function Features(equipment: Option<seq<Equipment>>): seq<string>
  {
    if equipment.None? then []
    else seq(|equipment.value|, i requires 0 <= i < |equipment.value| => Or(equipment.value[i].name, ""))
  }

  /** `recommendedEquipment?.[0]?.<member> || ""` */
  function FirstEquipment(equipment: Option<seq<Equipment>>, pick: Equipment -> Option<string>): string
  {
    if equipment.Some? && |equipment.value| > 0 then Or(pick(equipment.value[0]), "") else ""
  }

  function ToUseCase(u: UseCaseRecord, index: nat): UseCase
  {
    UseCase(
      u.id,
      u.tabLabel,
      ExtractPlainText(OrDefault(u.description, Blocks([]))),
      Features(u.recommendedEquipment),
      FirstEquipment(u.recommendedEquipment, (e: Equipment) => e.spec),
      FirstEquipment(u.recommendedEquipment, (e: Equipment) => e.note))
  }

  /** `displayUseCases`, with `useCases` the list prop. */
  function DisplayUseCases(useCases: Option<seq<UseCase>>, data: Option<seq<UseCaseRecord>>): seq<UseCase>
  {
    Cms.FromCms(data, ToUseCase, OrDefault(useCases, DefaultUseCases))
  }

  /** A non-empty CMS list is shown one to one and in order, its id and tab label as the
      case's id and title and its description flattened; otherwise the list prop or the
      built-ins. */
  lemma DisplayUseCasesMapping(useCases: Option<seq<UseCase>>, data: Option<seq<UseCaseRecord>>)
    ensures var r := DisplayUseCases(useCases, data);
      if data.Some? && data.value != [] then
        |r| == |data.value| &&
        forall i :: 0 <= i < |r| ==>
          && r[i].id == data.value[i].id
          && r[i].title == data.value[i].tabLabel
          && (data.value[i].description.None? ==> r[i].description == "")
          && (data.value[i].description.Some? ==> r[i].description == ExtractPlainText(data.value[i].description.value))
      else r == OrDefault(useCases, DefaultUseCases)
  {
  }

  /** One feature per equipment entry, in order, its name or "" when it has none; no
      features without an equipment list. */
  lemma FeaturesAreEquipmentNames(u: UseCaseRecord, index: nat)
    ensures var f := ToUseCase(u, index).features;
      && (u.recommendedEquipment.None? ==> f == [])
      && (u.recommendedEquipment.Some? ==>
            |f| == |u.recommendedEquipment.value| &&
            forall i :: 0 <= i < |f| ==>
              f[i] == if Truthy(u.recommendedEquipment.value[i].name) then u.recommendedEquipment.value[i].name.value else "")
  {
  }

  /** The size and budget lines come from the first equipment entry's `spec` and
      `note`, and are "" when there is no entry or it lacks them. */
  lemma SizeAndBudgetFromFirstEntry(u: UseCaseRecord, index: nat)
    ensures var c := ToUseCase(u, index);
      var eq := u.recommendedEquipment;
      && (eq.Some? && eq.value != [] && Truthy(eq.value[0].spec) ==> c.recommendedSize == eq.value[0].spec.value)
      && (eq.Some? && eq.value != [] && Truthy(eq.value[0].note) ==> c.budget == eq.value[0].note.value)
      && (eq.None? || eq.value == [] ==> c.recommendedSize == "" && c.budget == "")
      && (eq.Some? && eq.value != [] && !Truthy(eq.value[0].spec) ==> c.recommendedSize == "")
      && (eq.Some? && eq.value != [] && !Truthy(eq.value[0].note) ==> c.budget == "")
  {
  }

  /** The heading: the title prop (missing means the built-in title) with its first two
      characters highlighted; the two parts put together are the whole title. */
  function Heading(title: Option<string>): (r: SectionTitle.TitleParts)
    ensures r.highlighted + r.rest == OrDefault(title, DefaultTitle)
    ensures |r.highlighted| == if |OrDefault(title, DefaultTitle)| < 2 then |OrDefault(title, DefaultTitle)| else 2
  {
    SectionTitle.TitlePartsJoin(OrDefault(title, DefaultTitle));
    SectionTitle.SplitTitle(OrDefault(title, DefaultTitle))
  }
}
