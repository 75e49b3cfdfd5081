/** The testimonials section (src/components/sections/Testimonials.tsx): the CMS
    testimonials converted one to one (missing author details as "", a missing or zero
    rating as five stars), or the built-in three; each card shows five star slots and
    the quote in corner brackets. */
module Testimonials {
  import opened Js
  import Cms

  /** A testimonial as displayed. */
  datatype TestimonialItem = TestimonialItem(
    id: string,
    quote: string,
    author: string,
    role: string,
    company: string,
    rating: int)

  /** A CMS testimonial record (`TestimonialData`), as far as the section reads it. */
  datatype TestimonialRecord = TestimonialRecord(
    id: string,
    quote: string,
    authorName: Option<string>,
    authorRole: Option<string>,
    companyName: Option<string>,
    rating: Option<int>)

  const DefaultRating := 5

  const DefaultTestimonials: seq<TestimonialItem> := [
    TestimonialItem("1",
      "初めてのLEDビジョン導入で不安でしたが、担当者の方が丁寧に説明してくださり、安心して任せることができました。当日のサポートも完璧で、展示会は大成功でした。",
      "田中 様", "マーケティング部長", "製造業 A社", 5),
    TestimonialItem("2",
      "予算内で最大限の効果を出すプランを提案いただきました。特に代替機の即日対応は心強く、リスクを気にせず大規模なイベントに挑戦できました。",
      "鈴木 様", "イベント企画担当", "IT企業 B社", 5),
    TestimonialItem("3",
      "他社と比較して価格が明瞭で、追加費用の心配がありませんでした。機材の質も高く、映像がとても綺麗でした。次回も必ずお願いします。",
      "佐藤 様", "広報室", "商社 C社", 5)
  ]

  /** `rating || 5`: an absent rating and the falsy 0 both become five. */
  function Rating(rating: Option<int>): (r: int)
    ensures rating.Some? && rating.value != 0 ==> r == rating.value
    ensures rating.None? || rating.value == 0 ==> r == DefaultRating
    ensures r != 0
  {
    if rating.Some? && rating.value != 0 then rating.value else DefaultRating
  }

  function ToItem(t: TestimonialRecord, index: nat): TestimonialItem
  {
    TestimonialItem(t.id, t.quote, Or(t.authorName, ""), Or(t.authorRole, ""), Or(t.companyName, ""), Rating(t.rating))
  }

  /** `displayTestimonials`, with `testimonials` the list prop. */
  function DisplayTestimonials(testimonials: Option<seq<TestimonialItem>>, data: Option<seq<TestimonialRecord>>): seq<TestimonialItem>
  {
    Cms.FromCms(data, ToItem, OrDefault(testimonials, DefaultTestimonials))
  }

  /** A non-empty CMS list is shown one to one and in order, with its quote as given,
      missing author details as "" and the rating defaulted; otherwise the list prop or
      the built-ins. */
  lemma DisplayTestimonialsMapping(testimonials: Option<seq<TestimonialItem>>, data: Option<seq<TestimonialRecord>>)
    ensures var r := DisplayTestimonials(testimonials, data);
      if data.Some? && data.value != [] then
        |r| == |data.value| &&
        forall i :: 0 <= i < |r| ==>
          var t := data.value[i];
          && r[i].id == t.id && r[i].quote == t.quote
          && (Truthy(t.authorName) ==> r[i].author == t.authorName.value)
          && (!Truthy(t.authorName) ==> r[i].author == "")
          && (Truthy(t.authorRole) ==> r[i].role == t.authorRole.value)
          && (!Truthy(t.authorRole) ==> r[i].role == "")
          && (Truthy(t.companyName) ==> r[i].company == t.companyName.value)
          && (!Truthy(t.companyName) ==> r[i].company == "")
          && r[i].rating == Rating(t.rating)
      else r == OrDefault(testimonials, DefaultTestimonials)
  {
  }

  // ---------------------------------------------------------------------------------
  // Stars

  const StarSlots := 5

  /** The five star slots, each filled (`true`) when its index is below the rating. */
  function Stars(rating: int): (r: seq<bool>)
    ensures |r| == StarSlots
    ensures forall i :: 0 <= i < StarSlots ==> (r[i] <==> i < rating)
  {
    seq(StarSlots, i requires 0 <= i < StarSlots => i < rating)
  }

  function CountFilled(slots: seq<bool>): nat
  {
    if slots == [] then 0 else (if slots[0] then 1 else 0) + CountFilled(slots[1..])
  }

  /** The rating clamped into 0..5. */
  function Clamp(rating: int): (r: nat)
    ensures r <= StarSlots
    ensures 0 <= rating <= StarSlots ==> r == rating
  {
    if rating < 0 then 0 else if rating > StarSlots then StarSlots else rating
  }

  /** The filled slots come first, and there are as many as the rating clamped into
      0..5: a rating above five fills every slot, one below one fills none. */
  lemma FilledStars(rating: int)
    ensures CountFilled(Stars(rating)) == Clamp(rating)
    ensures forall i, j :: 0 <= i < j < StarSlots && Stars(rating)[j] ==> Stars(rating)[i]
  {
    var s := Stars(rating);
    CountFive(s);
  }

  lemma CountFive(s: seq<bool>)
    requires |s| == 5
    ensures CountFilled(s) == (if s[0] then 1 else 0) + (if s[1] then 1 else 0) + (if s[2] then 1 else 0)
      + (if s[3] then 1 else 0) + (if s[4] then 1 else 0)
  {
    var s1, s2, s3, s4 := s[1..], s[2..], s[3..], s[4..];
    assert s1[1..] == s2 && s2[1..] == s3 && s3[1..] == s4 && s4[1..] == [];
    assert CountFilled(s4) == if s[4] then 1 else 0;
    assert CountFilled(s3) == (if s[3] then 1 else 0) + CountFilled(s4);
    assert CountFilled(s2) == (if s[2] then 1 else 0) + CountFilled(s3);
    assert CountFilled(s1) == (if s[1] then 1 else 0) + CountFilled(s2);
  }

  /** A CMS testimonial without a rating shows five filled stars. */
  lemma UnratedShowsFive(t: TestimonialRecord, index: nat)
    requires t.rating.None? || t.rating.value == 0
    ensures CountFilled(Stars(ToItem(t, index).rating)) == StarSlots
  {
    FilledStars(ToItem(t, index).rating);
  }

  /** The quote as printed: `「` + quote + `」`. */
  function Quoted(quote: string): (r: string)
    ensures |r| == |quote| + 2 && r[0] == '「' && r[|r| - 1] == '」' && r[1..|r| - 1] == quote
  {
    "「" + quote + "」"
  }

  /** The line under the author: company and role around " / ". */
  function Byline(company: string, role: string): (r: string)
    ensures |r| == |company| + 3 + |role|
    ensures r[..|company|] == company && r[|company| + 3..] == role
    ensures r[|company|..|company| + 3] == " / "
  {
    company + " / " + role
  }
}
