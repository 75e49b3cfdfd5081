/** The FAQ section (src/components/sections/FAQ.tsx): the questions shown (the CMS
    list flattened to plain text, or the built-in six) and the accordion's set of open
    questions, which `toggleItem` replaces by a copy with one id added or removed. */
module Faq {
  import opened Js
  import opened PortableText
  import Cms

  /** A question as displayed. */
  datatype FaqItem = FaqItem(id: string, question: string, answer: string, category: Option<string>)

  /** A CMS FAQ record (`FAQData`): the answer is Portable Text. */
  datatype FaqRecord = FaqRecord(id: string, category: string, question: string, answer: Content)

  const DefaultFaqs: seq<FaqItem> := [
    FaqItem("1", "LEDビジョンのピクセルピッチとは何ですか？",
      "ピクセルピッチとは、LEDの画素間の距離を表す数値です。数値が小さいほど高精細で、近距離での視聴に適しています。例えば、P2.5なら2.5mmピッチです。用途や視聴距離に応じて最適なものをご提案します。",
      Some("technical")),
    FaqItem("2", "最短でどのくらいの期間で利用できますか？",
      "在庫状況によりますが、最短で3日前からのご予約が可能です。大型サイズやイベント繁忙期は早めのご相談をおすすめします。緊急の場合もまずはお問い合わせください。",
      Some("contract")),
    FaqItem("3", "当日トラブルが発生した場合、対応してもらえますか？",
      "はい、24時間対応のサポート体制を整えています。万が一の機材トラブル時は、在庫豊富な代替機を即日でお届けします。スタンダードプラン以上は代替機即日対応が含まれています。",
      Some("trouble")),
    FaqItem("4", "初めて利用するのですが、設置は自分でできますか？",
      "小型のモデルは比較的簡単に設置いただけますが、安全のため設置サポートをおすすめしています。全プランに操作説明が含まれており、スタンダード以上は設置サポートも付いています。",
      Some("beginner")),
    FaqItem("5", "キャンセル料はかかりますか？",
      "利用日の7日前までのキャンセルは無料です。6日前〜3日前は50%、2日前〜当日は100%のキャンセル料が発生します。日程変更の場合は別途ご相談ください。",
      Some("contract")),
    FaqItem("6", "屋外でも使用できますか？",
      "はい、屋外対応モデルをご用意しています。防水・防塵仕様で、直射日光下でも高い視認性を確保できます。屋外利用の場合は事前にご相談ください。",
      Some("technical"))
  ]

  function ToItem(f: FaqRecord, index: nat): FaqItem
  {
    FaqItem(f.id, f.question, ExtractPlainText(f.answer), Some(f.category))
  }

  /** `displayFAQs`, with `faqs` the list prop (the built-ins when not given). */
  function DisplayFaqs(faqs: Option<seq<FaqItem>>, data: Option<seq<FaqRecord>>): seq<FaqItem>
  {
    Cms.FromCms(data, ToItem, OrDefault(faqs, DefaultFaqs))
  }

  /** A non-empty CMS list is shown one to one and in order, with answers flattened;
      otherwise the list prop, or the built-ins. */
  lemma DisplayFaqsMapping(faqs: Option<seq<FaqItem>>, data: Option<seq<FaqRecord>>)
    ensures var r := DisplayFaqs(faqs, data);
      if data.Some? && data.value != [] then
        |r| == |data.value| &&
        forall i :: 0 <= i < |r| ==>
          && r[i].id == data.value[i].id
          && r[i].question == data.value[i].question
          && r[i].answer == ExtractPlainText(data.value[i].answer)
          && r[i].category == Some(data.value[i].category)
      else r == (if faqs.Some? then faqs.value else DefaultFaqs)
  {
  }

  /** The built-in questions have distinct ids, so each toggles on its own. */
  lemma DefaultIdsDistinct()
    ensures forall i, j :: 0 <= i < j < |DefaultFaqs| ==> DefaultFaqs[i].id != DefaultFaqs[j].id
  {
  }

  // ---------------------------------------------------------------------------------
  // The open set

  /** The set after toggling `id`: added when absent, removed when present. */
  function Toggled(open: set<string>, id: string): (r: set<string>)
    ensures id in r <==> id !in open
    ensures forall x :: x != id ==> (x in r <==> x in open)
  {
    if id in open then open - {id} else open + {id}
  }

  /** Toggling the same id twice restores the set. */
  lemma ToggleTwice(open: set<string>, id: string)
    ensures Toggled(Toggled(open, id), id) == open
  {
  }

  /** Toggles of two ids can be done in either order. */
  lemma TogglesCommute(open: set<string>, a: string, b: string)
    ensures Toggled(Toggled(open, a), b) == Toggled(Toggled(open, b), a)
  {
  }

  /** The set after a run of clicks, first click first. */
  function ToggleAll(open: set<string>, clicks: seq<string>): set<string>
    decreases |clicks|
  {
    if clicks == [] then open else ToggleAll(Toggled(open, clicks[0]), clicks[1..])
  }

  /** After a run of clicks a question is open exactly when its state flipped: it was
      open before, or it was clicked an odd number of times, but not both. */
  lemma {:induction false} OpenIffOddClicks(open: set<string>, clicks: seq<string>, x: string)
    ensures x in ToggleAll(open, clicks) <==> (x in open) != (multiset(clicks)[x] % 2 == 1)
    decreases |clicks|
  {
    if clicks != [] {
      OpenIffOddClicks(Toggled(open, clicks[0]), clicks[1..], x);
      assert clicks == [clicks[0]] + clicks[1..];
      assert multiset(clicks) == multiset{clicks[0]} + multiset(clicks[1..]);
    }
  }

  /** A JavaScript `Set<string>`. */
  class StringSet {
    var elems: set<string>

    /** `new Set()` */
    constructor Empty()
      ensures elems == {}
    {
      elems := {};
    }

    /** `new Set(other)`: a new set with the same members. */
    constructor Copy(other: StringSet)
      ensures elems == other.elems
    {
      elems := other.elems;
    }

    function Has(x: string): (r: bool)
      reads this
      ensures r <==> x in elems
    {
      x in elems
    }

    method Add(x: string)
      modifies this
      ensures elems == old(elems) + {x}
    {
      elems := elems + {x};
    }

    method Delete(x: string)
      modifies this
      ensures elems == old(elems) - {x}
    {
      elems := elems - {x};
    }
  }

  /** The accordion's state: the set of open question ids. */
  class Accordion {
    var openItems: StringSet

    constructor ()
      ensures fresh(openItems) && openItems.elems == {}
    {
      openItems := new StringSet.Empty();
    }

    /** `toggleItem(id)`: copy the current set, add or delete `id` on the copy, and make
        the copy current. The previous set object is never modified. */
    method ToggleItem(id: string)
      modifies this
      ensures fresh(openItems)
      ensures openItems.elems == Toggled(old(openItems.elems), id)
      ensures old(openItems).elems == old(openItems.elems)
    {
      var next := new StringSet.Copy(openItems);
      if next.Has(id) {
        next.Delete(id);
      } else {
        next.Add(id);
      }
      openItems := next;
    }

    /** Whether the question with this id is shown open (`openItems.has(faq.id)`). */
    function IsOpen(id: string): (r: bool)
      reads this, openItems
      ensures r <==> id in openItems.elems
    {
      openItems.Has(id)
    }
  }
}
