/** `extractPlainText`, the Portable Text flattener that the FAQ, use-case and reason
    sections each declare with the same text: a value that is not an array gives "";
    otherwise every entry whose `_type` is "block" becomes one line (the texts of its
    children run together, a missing text counting as ""), other entries are dropped, and
    the lines are joined with "\n". */
module PortableText {
  import opened Js

  /** A child span; only its `text` is read. */
  datatype Span = Span(text: Option<string>)

  /** An entry of a Portable Text array: its `_type` and its `children`, either of which
      may be missing. */
  datatype Entry = Entry(kind: Option<string>, children: Option<seq<Span>>)

  /** The argument: a missing or non-array value, or an array of entries. */
  datatype Content = NotAnArray | Blocks(entries: seq<Entry>)

  predicate IsBlock(e: Entry)
  {
    e.kind == Some("block")
  }

  /** `child.text || ""` */
  function SpanText(c: Span): string
  {
    Or(c.text, "")
  }

  /** The texts of the spans run together (`map(...).join("")`). */
  function Concat(spans: seq<Span>): string
    decreases |spans|
  {
    if spans == [] then "" else SpanText(spans[0]) + Concat(spans[1..])
  }

  /** One block's line: its children's texts run together, or "" without children. */
  function Line(e: Entry): string
  {
    match e.children
    case None => ""
    case Some(spans) => Concat(spans)
  }

  /** The lines of the block entries, in order (the `filter` then `map`). */
  function Lines(entries: seq<Entry>): (r: seq<string>)
    ensures |r| <= |entries|
    decreases |entries|
  {
    if entries == [] then []
    else (if IsBlock(entries[0]) then [Line(entries[0])] else []) + Lines(entries[1..])
  }

  function ExtractPlainText(c: Content): (r: string)
    ensures c.NotAnArray? ==> r == ""
  {
    match c
    case NotAnArray => ""
    case Blocks(entries) => Join(Lines(entries), "\n")
  }

  /** The blocks of an array, in order. */
  function BlocksOf(entries: seq<Entry>): (r: seq<Entry>)
    ensures forall i :: 0 <= i < |r| ==> IsBlock(r[i])
    decreases |entries|
  {
    if entries == [] then []
    else (if IsBlock(entries[0]) then [entries[0]] else []) + BlocksOf(entries[1..])
  }

  /** Running texts together works piecewise over the children. */
  lemma {:induction false} ConcatAppend(a: seq<Span>, b: seq<Span>)
    ensures Concat(a + b) == Concat(a) + Concat(b)
    decreases |a|
  {
    if a == [] {
      assert a + b == b;
    } else {
      assert (a + b)[1..] == a[1..] + b;
      ConcatAppend(a[1..], b);
    }
  }

  /** Filtering and mapping work piecewise over the array. */
  lemma {:induction false} LinesAppend(a: seq<Entry>, b: seq<Entry>)
    ensures Lines(a + b) == Lines(a) + Lines(b)
    decreases |a|
  {
    if a == [] {
      assert a + b == b;
    } else {
      var head := if IsBlock(a[0]) then [Line(a[0])] else [];
      assert (a + b)[0] == a[0] && (a + b)[1..] == a[1..] + b;
      assert Lines(a + b) == head + Lines(a[1..] + b);
      LinesAppend(a[1..], b);
      assert head + (Lines(a[1..]) + Lines(b)) == (head + Lines(a[1..])) + Lines(b);
    }
  }

  /** One line per block, in order: the lines are exactly the blocks' lines. */
  lemma {:induction false} LinesAreBlockLines(entries: seq<Entry>)
    ensures |Lines(entries)| == |BlocksOf(entries)|
    ensures forall i :: 0 <= i < |Lines(entries)| ==> Lines(entries)[i] == Line(BlocksOf(entries)[i])
    decreases |entries|
  {
    if entries != [] {
      LinesAreBlockLines(entries[1..]);
    }
  }

  /** An entry that is not a block contributes nothing, wherever it stands. */
  lemma NonBlockIgnored(a: seq<Entry>, e: Entry, b: seq<Entry>)
    requires !IsBlock(e)
    ensures ExtractPlainText(Blocks(a + [e] + b)) == ExtractPlainText(Blocks(a + b))
  {
    LinesAppend(a + [e], b);
    LinesAppend(a, [e]);
    LinesAppend(a, b);
    assert Lines([e]) == [];
    assert Lines(a + [e]) == Lines(a);
  }

  /** Appending a block adds its line after a "\n", or is the whole text if it is the
      first block. */
  lemma AppendBlock(entries: seq<Entry>, e: Entry)
    requires IsBlock(e)
    ensures ExtractPlainText(Blocks(entries + [e])) ==
      if Lines(entries) == [] then Line(e)
      else ExtractPlainText(Blocks(entries)) + "\n" + Line(e)
  {
    LinesAppend(entries, [e]);
    assert Lines([e]) == [Line(e)];
    if Lines(entries) != [] {
      JoinSnoc(Lines(entries), Line(e), "\n");
    }
  }

  /** Without blocks the text is empty. */
  lemma NoBlocksNoText(entries: seq<Entry>)
    requires forall i :: 0 <= i < |entries| ==> !IsBlock(entries[i])
    ensures ExtractPlainText(Blocks(entries)) == ""
  {
    if Lines(entries) != [] {
      LinesAreBlockLines(entries);
      assert BlocksOf(entries) != [];
      NoBlock(entries);
    }
  }

  lemma {:induction false} NoBlock(entries: seq<Entry>)
    requires forall i :: 0 <= i < |entries| ==> !IsBlock(entries[i])
    ensures BlocksOf(entries) == []
    decreases |entries|
  {
    if entries != [] {
      NoBlock(entries[1..]);
    }
  }

  /** Splitting the text at "\n" gives the lines back, one per block, as long as there is
      a block and no span text contains a line break. */
  lemma LinesRecovered(entries: seq<Entry>)
    requires Lines(entries) != []
    requires forall i :: 0 <= i < |Lines(entries)| ==> '\n' !in Lines(entries)[i]
    ensures Split(ExtractPlainText(Blocks(entries)), '\n') == Lines(entries)
  {
    JoinSplit(Lines(entries), '\n');
  }
}
