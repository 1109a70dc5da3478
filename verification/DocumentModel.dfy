/** Canonical document blocks and the order in which they are read. */
module DocumentModel {
  import opened Seqs
  import Sorting

  datatype BlockType =
    | Title | Heading | Paragraph | ListItem | Table | Formula | Figure | Caption
    | Footnote | Reference | HeaderFooter | Unknown

  /** `attributes.get("level", 1)`: missing, an integer, or something else. */
  datatype LevelAttribute = Missing | Whole(value: int) | NotWhole

  datatype Block = Block(id: string, kind: BlockType, readingOrder: nat, text: Option<string>, level: LevelAttribute)

  datatype Page = Page(pageNo: nat, blocks: seq<Block>)

  /** A block together with the page it was read from. */
  datatype Placed = Placed(page: nat, block: Block)

  function TextOf(b: Block): string {
    match b.text
    case Some(t) => t
    case None => ""
  }

  function HeadingLevel(b: Block): Option<nat> {
    match b.kind
    case Title => Some(0)
    case Heading => if b.level.Whole? && b.level.value >= 1 then Some(b.level.value) else Some(1)
    case _ => None
  }

  predicate IsHeading(p: Placed) {
    HeadingLevel(p.block).Some?
  }

  function LevelOf(p: Placed): nat
    requires IsHeading(p)
  {
    HeadingLevel(p.block).value
  }

  predicate IsAtomic(kind: BlockType) {
    kind in {Table, Formula, Figure, Caption}
  }

  /** Running text: neither heading, header/footer, reference nor atomic. */
  predicate IsBody(p: Placed) {
    p.block.kind in {Paragraph, ListItem, Footnote, Unknown}
  }

  function Ids(blocks: seq<Placed>): (r: seq<string>)
    ensures |r| == |blocks| && forall i :: 0 <= i < |r| ==> r[i] == blocks[i].block.id
  {
    seq(|blocks|, i requires 0 <= i < |blocks| => blocks[i].block.id)
  }

  function Texts(blocks: seq<Placed>): (r: seq<string>)
    ensures |r| == |blocks| && forall i :: 0 <= i < |r| ==> r[i] == TextOf(blocks[i].block)
  {
    seq(|blocks|, i requires 0 <= i < |blocks| => TextOf(blocks[i].block))
  }

  lemma {:induction false} IdsAppend(a: seq<Placed>, b: seq<Placed>)
    ensures Ids(a + b) == Ids(a) + Ids(b)
    ensures Texts(a + b) == Texts(a) + Texts(b)
  {
  }

  function MinPage(blocks: seq<Placed>): nat
    requires blocks != []
  {
    if |blocks| == 1 then blocks[0].page else Min(blocks[0].page, MinPage(blocks[1..]))
  }

  /** The last page of `blocks`, counting from page `from`. */
  function MaxPage(from: nat, blocks: seq<Placed>): (r: nat)
    ensures r >= from
  {
    if blocks == [] then from else Max(MaxPage(from, blocks[..|blocks| - 1]), blocks[|blocks| - 1].page)
  }

  // Reading order: pages by number, blocks of a page by `reading_order`, both sorts stable.

  predicate PageBefore(a: Page, b: Page) {
    a.pageNo <= b.pageNo
  }

  predicate BlockBefore(a: Block, b: Block) {
    a.readingOrder <= b.readingOrder
  }

  function OnPage(pageNo: nat, blocks: seq<Block>): (r: seq<Placed>)
    ensures |r| == |blocks| && forall i :: 0 <= i < |r| ==> r[i] == Placed(pageNo, blocks[i])
  {
    seq(|blocks|, i requires 0 <= i < |blocks| => Placed(pageNo, blocks[i]))
  }

  function ReadingSequence(pages: seq<Page>): seq<Placed> {
    ReadPages(Sorting.Sort(pages, PageBefore))
  }

  function ReadPages(pages: seq<Page>): seq<Placed> {
    if pages == [] then []
    else
      var last := pages[|pages| - 1];
      ReadPages(pages[..|pages| - 1]) + OnPage(last.pageNo, Sorting.Sort(last.blocks, BlockBefore))
  }

  predicate ReadBefore(a: Placed, b: Placed) {
    a.page < b.page || (a.page == b.page && a.block.readingOrder <= b.block.readingOrder)
  }

  predicate DistinctPages(pages: seq<Page>) {
    forall i, j :: 0 <= i < j < |pages| ==> pages[i].pageNo != pages[j].pageNo
  }

  /** How often a placed block occurs on the given pages. */
  function Occurrences(pages: seq<Page>): multiset<Placed> {
    if pages == [] then multiset{}
    else Occurrences(pages[..|pages| - 1]) + multiset(OnPage(pages[|pages| - 1].pageNo, pages[|pages| - 1].blocks))
  }

  lemma {:induction false} OnPageAppend(pageNo: nat, a: seq<Block>, b: seq<Block>)
    ensures OnPage(pageNo, a + b) == OnPage(pageNo, a) + OnPage(pageNo, b)
  {
  }

  lemma {:induction false} OnPageContents(pageNo: nat, a: seq<Block>, b: seq<Block>)
    requires multiset(a) == multiset(b)
    ensures multiset(OnPage(pageNo, a)) == multiset(OnPage(pageNo, b))
  {
    if a == [] {
      assert |multiset(a)| == |multiset(b)|;
    } else {
      var init, x := a[..|a| - 1], a[|a| - 1];
      var before, after := PullOut(a, b);
      OnPageContents(pageNo, init, before + after);
      assert a == init + [x];
      OnPageAppend(pageNo, init, [x]);
      OnPageAppend(pageNo, before + [x], after);
      OnPageAppend(pageNo, before, [x]);
      OnPageAppend(pageNo, before, after);
    }
  }

  lemma {:induction false} OccurrencesConcat(a: seq<Page>, b: seq<Page>)
    ensures Occurrences(a + b) == Occurrences(a) + Occurrences(b)
  {
    if b == [] {
      assert a + b == a;
    } else {
      assert (a + b)[..|a + b| - 1] == a + b[..|b| - 1];
      OccurrencesConcat(a, b[..|b| - 1]);
    }
  }

  lemma {:induction false} OccurrencesContents(a: seq<Page>, b: seq<Page>)
    requires multiset(a) == multiset(b)
    ensures Occurrences(a) == Occurrences(b)
  {
    if a == [] {
      assert |multiset(a)| == |multiset(b)|;
    } else {
      var init, x := a[..|a| - 1], a[|a| - 1];
      var before, after := PullOut(a, b);
      OccurrencesContents(init, before + after);
      assert a == init + [x];
      OccurrencesConcat(init, [x]);
      OccurrencesConcat(before + [x], after);
      OccurrencesConcat(before, [x]);
      OccurrencesConcat(before, after);
    }
  }

  lemma {:induction false} ReadPagesContents(pages: seq<Page>)
    ensures multiset(ReadPages(pages)) == Occurrences(pages)
  {
    if pages != [] {
      var last := pages[|pages| - 1];
      ReadPagesContents(pages[..|pages| - 1]);
      Sorting.SortContents(last.blocks, BlockBefore);
      OnPageContents(last.pageNo, Sorting.Sort(last.blocks, BlockBefore), last.blocks);
    }
  }

  lemma {:induction false} ReadPagesOrdered(pages: seq<Page>)
    requires forall i, j :: 0 <= i < j < |pages| ==> pages[i].pageNo < pages[j].pageNo
    ensures Sorting.Sorted(ReadPages(pages), ReadBefore)
    ensures forall p :: p in ReadPages(pages) ==> exists i :: 0 <= i < |pages| && pages[i].pageNo == p.page
  {
    if pages != [] {
      var init, last := pages[..|pages| - 1], pages[|pages| - 1];
      ReadPagesOrdered(init);
      Sorting.SortSorted(last.blocks, BlockBefore);
      var tail := OnPage(last.pageNo, Sorting.Sort(last.blocks, BlockBefore));
      assert Sorting.Sorted(tail, ReadBefore);
      forall p | p in ReadPages(init)
        ensures p.page < last.pageNo
        ensures exists i :: 0 <= i < |pages| && pages[i].pageNo == p.page
      {
        var i :| 0 <= i < |init| && init[i].pageNo == p.page;
        assert pages[i] == init[i];
      }
    }
  }

  lemma {:induction false} SamePosition(pages: seq<Page>, s: seq<Page>, i: nat)
    requires multiset(s) == multiset(pages) && i < |s|
    ensures exists k :: 0 <= k < |pages| && pages[k] == s[i]
  {
    assert s[i] in multiset(pages);
  }

  lemma {:induction false} SortedPagesAscend(pages: seq<Page>)
    requires DistinctPages(pages)
    ensures var s := Sorting.Sort(pages, PageBefore);
            forall i, j :: 0 <= i < j < |s| ==> s[i].pageNo < s[j].pageNo
  {
    var s := Sorting.Sort(pages, PageBefore);
    Sorting.SortContents(pages, PageBefore);
    Sorting.SortSorted(pages, PageBefore);
    DistinctRearranged(pages, s);
    forall i, j | 0 <= i < j < |s|
      ensures s[i].pageNo < s[j].pageNo
    {
      assert PageBefore(s[i], s[j]) && s[i] != s[j];
      SamePosition(pages, s, i);
      SamePosition(pages, s, j);
    }
  }

  /** Every block is read exactly as often as it occurs; with distinct page numbers, pages
      ascend and the blocks of a page ascend by their reading order. */
  lemma {:induction false} ReadingSequenceMeaning(pages: seq<Page>)
    ensures multiset(ReadingSequence(pages)) == Occurrences(pages)
    ensures DistinctPages(pages) ==> Sorting.Sorted(ReadingSequence(pages), ReadBefore)
  {
    var sorted := Sorting.Sort(pages, PageBefore);
    Sorting.SortContents(pages, PageBefore);
    ReadPagesContents(sorted);
    OccurrencesContents(sorted, pages);
    if DistinctPages(pages) {
      SortedPagesAscend(pages);
      ReadPagesOrdered(sorted);
    }
  }
}
