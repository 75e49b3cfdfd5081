/** The section headings that draw their first two characters highlighted and the rest
    plain: `title.slice(0, 2)` and `title.slice(2)`. */
module SectionTitle {
  import opened Js

  datatype TitleParts = TitleParts(highlighted: string, rest: string)

  function SplitTitle(title: string): TitleParts
  {
    TitleParts(SliceTo(title, 2), SliceFrom(title, 2))
  }

  /** Drawing the title in two parts loses and repeats nothing, and highlights at most
      two characters. */
  lemma TitlePartsJoin(title: string)
    ensures SplitTitle(title).highlighted + SplitTitle(title).rest == title
    ensures |SplitTitle(title).highlighted| == if |title| < 2 then |title| else 2
  {
    SliceHalves(title, 2);
  }
}
