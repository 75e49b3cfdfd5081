/** The rule every section component applies to what the CMS returned for it:
    `data && data.length > 0 ? data.map(convert) : fallback`. The fallback is the
    component's list prop, which defaults to the section's built-in items. */
module Cms {
  import opened Js

  /** Records converted one to one and in order, the converter seeing each record and
      its index (`map((r, index) => ...)`). */
  function MapIndexed<A, B>(data: seq<A>, convert: (A, nat) -> B): (r: seq<B>)
    ensures |r| == |data|
    ensures forall i :: 0 <= i < |data| ==> r[i] == convert(data[i], i)
  {
    seq(|data|, i requires 0 <= i < |data| => convert(data[i], i))
  }

  /** The CMS records when there is at least one, otherwise the fallback. */
  function FromCms<A, B>(data: Option<seq<A>>, convert: (A, nat) -> B, fallback: seq<B>): (r: seq<B>)
    ensures data.Some? && data.value != [] ==> r == MapIndexed(data.value, convert)
    ensures !(data.Some? && data.value != []) ==> r == fallback
  {
    if data.Some? && |data.value| > 0 then MapIndexed(data.value, convert) else fallback
  }

  /** A section with built-in items is never empty, whatever the CMS returns. */
  lemma NeverEmpty<A, B>(data: Option<seq<A>>, convert: (A, nat) -> B, fallback: seq<B>)
    requires fallback != []
    ensures FromCms(data, convert, fallback) != []
  {
  }
}
