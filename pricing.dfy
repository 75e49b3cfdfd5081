/** The pricing section (src/components/sections/Pricing.tsx): the CMS plans converted
    one to one, or the built-in three, and the way the popular plan is set apart (glow,
    lift, badge and primary button, all four together). */
module Pricing {
  import opened Js
  import Cms

  /** A plan as displayed; `isPopular` may be left out, as in the built-ins. */
  datatype PricingPlan = PricingPlan(
    id: string,
    name: string,
    description: string,
    price: string,
    priceNote: string,
    features: seq<string>,
    isPopular: Option<bool>,
    ctaText: string)

  /** A CMS plan record (`PricingPlanData`), as far as the section reads it. */
  datatype PricingPlanRecord = PricingPlanRecord(
    id: string,
    planName: string,
    price: string,
    priceNote: Option<string>,
    recommendedFor: Option<string>,
    features: Option<seq<string>>,
    isPopular: Option<bool>)

  const QuoteButton := "お見積り"
  const PopularBadge := "人気No.1"

  const DefaultPlans: seq<PricingPlan> := [
    PricingPlan("light", "ライトプラン", "小規模イベント・会議向け", "¥50,000", "〜 / 1日",
      ["1m × 2m サイズ", "基本設置サポート", "操作説明", "電話サポート", "機材保険付き"],
      None, QuoteButton),
    PricingPlan("standard", "スタンダードプラン", "展示会・中規模イベント向け", "¥150,000", "〜 / 1日",
      ["2m × 3m サイズ", "設置・撤去サポート", "操作説明・リハーサル対応", "24時間サポート", "代替機即日対応", "機材保険付き"],
      Some(true), QuoteButton),
    PricingPlan("premium", "プレミアムプラン", "大規模イベント・コンサート向け", "¥300,000", "〜 / 1日",
      ["4m × 6m〜 サイズ", "完全設置・撤去", "技術スタッフ常駐", "24時間サポート", "代替機即日対応", "映像制作相談可", "機材保険付き"],
      None, QuoteButton)
  ]

  function ToPlan(p: PricingPlanRecord, index: nat): PricingPlan
  {
    PricingPlan(
      p.id,
      p.planName,
      Or(p.recommendedFor, ""),
      p.price,
      Or(p.priceNote, ""),
      OrDefault(p.features, []),
      Some(p.isPopular == Some(true)),
      QuoteButton)
  }

  /** `displayPlans`, with `plans` the list prop. */
  function DisplayPlans(plans: Option<seq<PricingPlan>>, data: Option<seq<PricingPlanRecord>>): seq<PricingPlan>
  {
    Cms.FromCms(data, ToPlan, OrDefault(plans, DefaultPlans))
  }

  /** A plan is popular when its flag is present and true. */
  predicate IsPopular(p: PricingPlan)
  {
    p.isPopular == Some(true)
  }

  /** A non-empty CMS list is shown one to one and in order: name and price as given,
      a missing recommendation, price note or feature list as "" or [], the popular
      flag defaulted to false, and the same button text on every plan. Otherwise the
      list prop or the built-ins. */
  lemma DisplayPlansMapping(plans: Option<seq<PricingPlan>>, data: Option<seq<PricingPlanRecord>>)
    ensures var r := DisplayPlans(plans, data);
      if data.Some? && data.value != [] then
        |r| == |data.value| &&
        forall i :: 0 <= i < |r| ==>
          var p := data.value[i];
          && r[i].id == p.id && r[i].name == p.planName && r[i].price == p.price
          && (Truthy(p.recommendedFor) ==> r[i].description == p.recommendedFor.value)
          && (!Truthy(p.recommendedFor) ==> r[i].description == "")
          && (Truthy(p.priceNote) ==> r[i].priceNote == p.priceNote.value)
          && (!Truthy(p.priceNote) ==> r[i].priceNote == "")
          && (p.features.Some? ==> r[i].features == p.features.value)
          && (p.features.None? ==> r[i].features == [])
          && r[i].isPopular.Some?
          && (IsPopular(r[i]) <==> p.isPopular == Some(true))
          && r[i].ctaText == QuoteButton
      else r == OrDefault(plans, DefaultPlans)
  {
  }

  /** Of the built-in plans exactly the middle one is popular. */
  lemma OnlyStandardIsPopular()
    ensures forall i :: 0 <= i < |DefaultPlans| ==> (IsPopular(DefaultPlans[i]) <==> DefaultPlans[i].id == "standard")
  {
  }

  // ---------------------------------------------------------------------------------
  // Presentation

  datatype CardVariant = Glow | Plain
  datatype ButtonVariant = Primary | Secondary

  /** How a plan's card is drawn: its variant, whether it is raised, its badge, the
      button's variant and caption. */
  datatype Card = Card(variant: CardVariant, raised: bool, badge: Option<string>, button: ButtonVariant, caption: string)

  function Present(p: PricingPlan): Card
  {
    var popular := IsPopular(p);
    Card(
      if popular then Glow else Plain,
      popular,
      if popular then Some(PopularBadge) else None,
      if popular then Primary else Secondary,
      p.ctaText)
  }

  /** The four marks of the popular plan appear together, and exactly on popular plans. */
  lemma PopularMarksTogether(p: PricingPlan)
    ensures var c := Present(p);
      && (c.variant == Glow <==> IsPopular(p))
      && (c.raised <==> IsPopular(p))
      && (c.badge.Some? <==> IsPopular(p))
      && (c.badge.Some? ==> c.badge.value == PopularBadge)
      && (c.button == Primary <==> IsPopular(p))
  {
  }
}
