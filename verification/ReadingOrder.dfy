/** Reading order of a page's layout blocks: decorations apart, spanning blocks first, then column by
    column, with a quality score that counts ambiguous neighbours. */
module ReadingOrder {
  import opened Seqs
  import Sorting

  datatype Block = Block(
    id: string, x0: real, y0: real, x1: real, y1: real,
    initialOrder: nat, column: nat, spans: bool, isHeaderFooter: bool)

  datatype PageOrder = PageOrder(body: seq<string>, decorations: seq<string>, quality: real, crossings: nat)

  /** Key `(y0, x0, initial_order)`. */
  predicate PlaceBefore(a: Block, b: Block) {
    a.y0 < b.y0 || (a.y0 == b.y0 && (a.x0 < b.x0 || (a.x0 == b.x0 && a.initialOrder <= b.initialOrder)))
  }

  /** Key `(initial_order, y0, x0)`. */
  predicate DecorationBefore(a: Block, b: Block) {
    a.initialOrder < b.initialOrder
    || (a.initialOrder == b.initialOrder && (a.y0 < b.y0 || (a.y0 == b.y0 && a.x0 <= b.x0)))
  }

  // Columns.

  /** The dictionary `{c: i}` over the column order: a repeated column keeps its last index. */
  function RankMap(order: seq<int>): map<int, nat> {
    if order == [] then map[] else RankMap(order[..|order| - 1])[order[|order| - 1] := |order| - 1]
  }

  function RankOf(rank: map<int, nat>, c: nat): nat {
    if c in rank then rank[c] else |rank|
  }

  /** Key `(rank, column)`. */
  predicate ColumnBefore(rank: map<int, nat>, c: nat, d: nat) {
    var rc, rd := RankOf(rank, c), RankOf(rank, d);
    rc < rd || (rc == rd && c <= d)
  }

  function ByRank(rank: map<int, nat>): (nat, nat) -> bool {
    (c: nat, d: nat) => ColumnBefore(rank, c, d)
  }

  function Ascending(): (nat, nat) -> bool {
    (c: nat, d: nat) => c <= d
  }

  /** The columns in use, each once. */
  function ColumnsOf(blocks: seq<Block>): seq<nat> {
    if blocks == [] then []
    else
      var init, c := ColumnsOf(blocks[..|blocks| - 1]), blocks[|blocks| - 1].column;
      if c in init then init else init + [c]
  }

  // The order.

  function Body(blocks: seq<Block>): seq<Block> {
    Sorting.Filter(blocks, (b: Block) => !b.isHeaderFooter)
  }

  function Decorations(blocks: seq<Block>): seq<Block> {
    Sorting.Sort(Sorting.Filter(blocks, (b: Block) => b.isHeaderFooter), DecorationBefore)
  }

  function Spanning(body: seq<Block>): seq<Block> {
    Sorting.Sort(Sorting.Filter(body, (b: Block) => b.spans), PlaceBefore)
  }

  function Columned(body: seq<Block>): seq<Block> {
    Sorting.Filter(body, (b: Block) => !b.spans)
  }

  function InColumn(c: nat): Block -> bool {
    (b: Block) => b.column == c
  }

  function Column(columned: seq<Block>, c: nat): seq<Block> {
    Sorting.Sort(Sorting.Filter(columned, InColumn(c)), PlaceBefore)
  }

  function Columns(columned: seq<Block>, columns: seq<nat>): seq<Block> {
    if columns == [] then [] else Columns(columned, columns[..|columns| - 1]) + Column(columned, columns[|columns| - 1])
  }

  function Ordered(blocks: seq<Block>, order: seq<int>): seq<Block> {
    var body := Body(blocks);
    var columned := Columned(body);
    Spanning(body) + Columns(columned, Sorting.Sort(ColumnsOf(columned), ByRank(RankMap(order))))
  }

  function Ids(blocks: seq<Block>): (r: seq<string>)
    ensures |r| == |blocks| && forall i :: 0 <= i < |r| ==> r[i] == blocks[i].id
  {
    seq(|blocks|, i requires 0 <= i < |blocks| => blocks[i].id)
  }

  // Ambiguous neighbours.

  /** Neighbours of one column whose vertical extents overlap with different starts. */
  predicate Crosses(prev: Block, cur: Block) {
    !prev.spans && !cur.spans && prev.column == cur.column && prev.y0 < cur.y0 < prev.y1
  }

  predicate CrossesAt(ordered: seq<Block>, i: nat) {
    i + 1 < |ordered| && Crosses(ordered[i], ordered[i + 1])
  }

  /** Where the first `n` blocks have an ambiguous successor. */
  function CrossingsIn(ordered: seq<Block>, n: nat): set<nat> {
    set i: nat | i < n && CrossesAt(ordered, i)
  }

  function CrossingsAt(ordered: seq<Block>): set<nat> {
    CrossingsIn(ordered, |ordered|)
  }

  /** The score, over exact tenths. */
  function Quality(crossings: nat): real {
    var q := 1.0 - 0.1 * crossings as real;
    if q < 0.0 then 0.0 else q
  }

  // The computation.

  method RankColumns(order: seq<int>) returns (rank: map<int, nat>)
    ensures rank == RankMap(order)
  {
    rank := map[];
    for i := 0 to |order|
      invariant rank == RankMap(order[..i])
    {
      assert order[..i + 1][..i] == order[..i];
      rank := rank[order[i] := i];
    }
    assert order[..|order|] == order;
  }

  method ConcatColumns(columned: seq<Block>, columns: seq<nat>) returns (r: seq<Block>)
    ensures r == Columns(columned, columns)
  {
    r := [];
    for i := 0 to |columns|
      invariant r == Columns(columned, columns[..i])
    {
      assert columns[..i + 1][..i] == columns[..i];
      r := r + Sorting.Sort(Sorting.Filter(columned, InColumn(columns[i])), PlaceBefore);
    }
    assert columns[..|columns|] == columns;
  }

  method CountCrossings(ordered: seq<Block>) returns (n: nat)
    ensures n == |CrossingsAt(ordered)|
  {
    n := 0;
    var i := 0;
    while i + 1 < |ordered|
      invariant 0 <= i && (i == 0 || i < |ordered|)
      invariant n == |CrossingsIn(ordered, i)|
    {
      CrossingsStep(ordered, i);
      var prev, cur := ordered[i], ordered[i + 1];
      if !prev.spans && !cur.spans {
        if prev.column == cur.column && prev.y0 < cur.y0 < prev.y1 {
          n := n + 1;
        }
      }
      i := i + 1;
    }
    if ordered != [] {
      CrossingsStep(ordered, i);
    }
  }

  lemma {:induction false} CrossingsStep(ordered: seq<Block>, i: nat)
    ensures |CrossingsIn(ordered, i + 1)| == |CrossingsIn(ordered, i)| + (if CrossesAt(ordered, i) then 1 else 0)
  {
    if CrossesAt(ordered, i) {
      assert CrossingsIn(ordered, i + 1) == CrossingsIn(ordered, i) + {i};
    } else {
      assert CrossingsIn(ordered, i + 1) == CrossingsIn(ordered, i);
    }
  }

  /** `compute_reading_order`. */
  method ComputeReadingOrder(blocks: seq<Block>, columnOrder: seq<int>) returns (r: PageOrder)
    ensures r.body == Ids(Ordered(blocks, columnOrder))
    ensures r.decorations == Ids(Decorations(blocks))
    ensures r.crossings == |CrossingsAt(Ordered(blocks, columnOrder))|
    ensures r.quality == Quality(r.crossings)
  {
    var decorations := Decorations(blocks);
    var body := Body(blocks);
    var spanning := Spanning(body);
    var columned := Columned(body);
    var columns;
    if columnOrder != [] {
      var rank := RankColumns(columnOrder);
      columns := Sorting.Sort(ColumnsOf(columned), ByRank(rank));
    } else {
      columns := Sorting.Sort(ColumnsOf(columned), Ascending());
      AscendingIsUnranked(ColumnsOf(columned));
    }
    var columnSorted := ConcatColumns(columned, columns);
    var ordered := spanning + columnSorted;
    var crossings := CountCrossings(ordered);
    var score := 1.0 - 0.1 * crossings as real;
    r := PageOrder(Ids(ordered), Ids(decorations), if score < 0.0 then 0.0 else score, crossings);
  }

  lemma {:induction false} AscendingIsUnranked(columns: seq<nat>)
    ensures Sorting.Sort(columns, Ascending()) == Sorting.Sort(columns, ByRank(RankMap([])))
  {
    Sorting.SortAgrees(columns, Ascending(), ByRank(RankMap([])));
  }

  // The order as one sort.

  /** Spanning blocks first, then by column rank, then by place. */
  predicate ReadBefore(rank: map<int, nat>, a: Block, b: Block) {
    if a.spans != b.spans then a.spans
    else if !a.spans && a.column != b.column then ColumnBefore(rank, a.column, b.column)
    else PlaceBefore(a, b)
  }

  function Reading(rank: map<int, nat>): (Block, Block) -> bool {
    (a, b) => ReadBefore(rank, a, b)
  }

  lemma {:induction false} Orders(rank: map<int, nat>)
    ensures Sorting.Preorder(PlaceBefore) && Sorting.Preorder(DecorationBefore)
    ensures Sorting.Preorder(ByRank(rank)) && Sorting.Preorder(Reading(rank))
  {
  }

  function Tied(rank: map<int, nat>, k: Block): Block -> bool {
    (b: Block) => ReadBefore(rank, b, k) && ReadBefore(rank, k, b)
  }

  function SamePlace(k: Block): Block -> bool {
    (b: Block) => PlaceBefore(b, k) && PlaceBefore(k, b)
  }

  /** One group, picked by `keep` and sorted by place, holds the blocks tied with `k` in input order when
      `k` belongs to the group, and none of them otherwise. */
  lemma {:induction false} GroupTies(s: seq<Block>, keep: Block -> bool, rank: map<int, nat>, k: Block)
    requires forall b :: b in s && keep(b) ==> (Tied(rank, k)(b) <==> keep(k) && SamePlace(k)(b))
    requires forall b :: b in s && keep(k) && Tied(rank, k)(b) ==> keep(b)
    ensures Sorting.Filter(Sorting.Sort(Sorting.Filter(s, keep), PlaceBefore), Tied(rank, k))
            == if keep(k) then Sorting.Filter(s, Tied(rank, k)) else []
  {
    var group := Sorting.Filter(s, keep);
    var part := Sorting.Sort(group, PlaceBefore);
    forall b
      ensures b in part ==> b in s && keep(b)
      ensures b in group ==> b in s && keep(b)
    {
      Sorting.SortMember(group, PlaceBefore, b);
      Sorting.FilterMember(s, keep, b);
    }
    if keep(k) {
      Orders(rank);
      Sorting.FilterAgrees(part, Tied(rank, k), SamePlace(k));
      PlaceStable(group, k);
      Sorting.FilterAgrees(group, SamePlace(k), Tied(rank, k));
      Sorting.FilterTwice(s, keep, Tied(rank, k));
    } else {
      Sorting.FilterNone(part, Tied(rank, k));
    }
  }

  lemma {:induction false} PlaceStable(s: seq<Block>, k: Block)
    ensures Sorting.Filter(Sorting.Sort(s, PlaceBefore), SamePlace(k)) == Sorting.Filter(s, SamePlace(k))
  {
    Orders(map[]);
    Sorting.SortStable(s, k, PlaceBefore);
    Sorting.TiesPicked(Sorting.Sort(s, PlaceBefore), k, PlaceBefore, SamePlace(k));
    Sorting.TiesPicked(s, k, PlaceBefore, SamePlace(k));
  }

  lemma {:induction false} SpanningMember(body: seq<Block>, b: Block)
    ensures b in Spanning(body) <==> b in body && b.spans
  {
    Sorting.SortMember(Sorting.Filter(body, (b: Block) => b.spans), PlaceBefore, b);
    Sorting.FilterMember(body, (b: Block) => b.spans, b);
  }

  lemma {:induction false} ColumnedMember(body: seq<Block>, b: Block)
    ensures b in Columned(body) <==> b in body && !b.spans
  {
    Sorting.FilterMember(body, (b: Block) => !b.spans, b);
  }

  lemma {:induction false} ColumnMember(columned: seq<Block>, c: nat, b: Block)
    ensures b in Column(columned, c) <==> b in columned && b.column == c
  {
    Sorting.SortMember(Sorting.Filter(columned, InColumn(c)), PlaceBefore, b);
    Sorting.FilterMember(columned, InColumn(c), b);
  }

  lemma {:induction false} ColumnsMember(columned: seq<Block>, columns: seq<nat>, b: Block)
    ensures b in Columns(columned, columns) <==> b in columned && b.column in columns
  {
    if columns != [] {
      ColumnsMember(columned, columns[..|columns| - 1], b);
      ColumnMember(columned, columns[|columns| - 1], b);
    }
  }

  /** The columns in use. */
  lemma {:induction false} ColumnsOfMeaning(blocks: seq<Block>)
    ensures Distinct(ColumnsOf(blocks))
    ensures forall b :: b in blocks ==> b.column in ColumnsOf(blocks)
  {
    if blocks != [] {
      ColumnsOfMeaning(blocks[..|blocks| - 1]);
    }
  }

  lemma {:induction false} SpanningTies(body: seq<Block>, rank: map<int, nat>, k: Block)
    ensures Sorting.Filter(Spanning(body), Tied(rank, k)) == if k.spans then Sorting.Filter(body, Tied(rank, k)) else []
  {
    GroupTies(body, (b: Block) => b.spans, rank, k);
  }

  lemma {:induction false} ColumnTies(columned: seq<Block>, c: nat, rank: map<int, nat>, k: Block)
    requires forall b :: b in columned ==> !b.spans
    ensures Sorting.Filter(Column(columned, c), Tied(rank, k))
            == if !k.spans && k.column == c then Sorting.Filter(columned, Tied(rank, k)) else []
  {
    if k.spans {
      forall i | 0 <= i < |Column(columned, c)|
        ensures !Tied(rank, k)(Column(columned, c)[i])
      {
        ColumnMember(columned, c, Column(columned, c)[i]);
      }
      Sorting.FilterNone(Column(columned, c), Tied(rank, k));
    } else {
      GroupTies(columned, InColumn(c), rank, k);
    }
  }

  lemma {:induction false} ColumnsTies(columned: seq<Block>, columns: seq<nat>, rank: map<int, nat>, k: Block)
    requires Distinct(columns) && forall b :: b in columned ==> !b.spans
    ensures Sorting.Filter(Columns(columned, columns), Tied(rank, k))
            == if !k.spans && k.column in columns then Sorting.Filter(columned, Tied(rank, k)) else []
  {
    if columns != [] {
      ColumnsSnoc(columned, columns);
      hide Columns, Column, Distinct, ReadBefore, Sorting.Filter;
      var init, c := columns[..|columns| - 1], columns[|columns| - 1];
      ColumnsTies(columned, init, rank, k);
      ColumnTies(columned, c, rank, k);
      Sorting.FilterAppend(Columns(columned, init), Column(columned, c), Tied(rank, k));
    }
  }

  lemma {:induction false} ColumnsSnoc(columned: seq<Block>, columns: seq<nat>)
    requires columns != [] && Distinct(columns)
    ensures var init, c := columns[..|columns| - 1], columns[|columns| - 1];
            && Columns(columned, columns) == Columns(columned, init) + Column(columned, c)
            && Distinct(init) && c !in init && forall d :: d in columns <==> d == c || d in init
  {
    hide Column;
    SnocConcat([], columns);
  }

  lemma {:induction false} OrderedTies(blocks: seq<Block>, order: seq<int>, k: Block)
    ensures Sorting.Filter(Ordered(blocks, order), Tied(RankMap(order), k))
            == Sorting.Filter(Body(blocks), Tied(RankMap(order), k))
  {
    var body, rank := Body(blocks), RankMap(order);
    var columned := Columned(body);
    var columns := Sorting.Sort(ColumnsOf(columned), ByRank(rank));
    forall b
      ensures b in columned <==> b in body && !b.spans
    {
      ColumnedMember(body, b);
    }
    hide Sorting.Sorted, Distinct, Columns, Spanning, ReadBefore;
    SpanningTies(body, rank, k);
    SortedColumns(columned, rank);
    ColumnsTies(columned, columns, rank, k);
    Sorting.FilterAppend(Spanning(body), Columns(columned, columns), Tied(rank, k));
    if !k.spans {
      TiedColumned(body, rank, k);
      if k.column !in columns {
        NobodyTied(columned, columns, rank, k);
      }
    }
  }

  lemma {:induction false} TiedColumned(body: seq<Block>, rank: map<int, nat>, k: Block)
    requires !k.spans
    ensures Sorting.Filter(Columned(body), Tied(rank, k)) == Sorting.Filter(body, Tied(rank, k))
  {
    Sorting.FilterTwice(body, (b: Block) => !b.spans, Tied(rank, k));
  }

  lemma {:induction false} NobodyTied(columned: seq<Block>, columns: seq<nat>, rank: map<int, nat>, k: Block)
    requires !k.spans && k.column !in columns
    requires forall b :: b in columned ==> !b.spans && b.column in columns
    ensures Sorting.Filter(columned, Tied(rank, k)) == []
  {
    Sorting.FilterNone(columned, Tied(rank, k));
  }

  lemma {:induction false} SortedColumns(columned: seq<Block>, rank: map<int, nat>)
    ensures var columns := Sorting.Sort(ColumnsOf(columned), ByRank(rank));
            && Distinct(columns) && Sorting.Sorted(columns, ByRank(rank))
            && forall b :: b in columned ==> b.column in columns
  {
    ColumnsOfMeaning(columned);
    var cs := ColumnsOf(columned);
    var columns := Sorting.Sort(cs, ByRank(rank));
    Sorting.SortContents(cs, ByRank(rank));
    DistinctRearranged(cs, columns);
    Orders(rank);
    Sorting.SortSorted(cs, ByRank(rank));
    forall b | b in columned
      ensures b.column in columns
    {
      Sorting.SortMember(cs, ByRank(rank), b.column);
    }
  }

  // Sortedness.

  lemma {:induction false} SortedWithin(s: seq<Block>, rank: map<int, nat>)
    requires Sorting.Sorted(s, PlaceBefore)
    requires forall a, b :: a in s && b in s ==> a.spans == b.spans && (a.spans || a.column == b.column)
    ensures Sorting.Sorted(s, Reading(rank))
  {
    forall i, j | 0 <= i < j < |s|
      ensures Reading(rank)(s[i], s[j])
    {
      assert s[i] in s && s[j] in s && PlaceBefore(s[i], s[j]);
    }
  }

  lemma {:induction false} ColumnsSorted(columned: seq<Block>, columns: seq<nat>, rank: map<int, nat>)
    requires forall b :: b in columned ==> !b.spans
    requires Distinct(columns) && Sorting.Sorted(columns, ByRank(rank))
    ensures Sorting.Sorted(Columns(columned, columns), Reading(rank))
  {
    if columns != [] {
      var init, c := columns[..|columns| - 1], columns[|columns| - 1];
      ColumnsSorted(columned, init, rank);
      var left, right := Columns(columned, init), Column(columned, c);
      Orders(rank);
      Sorting.SortSorted(Sorting.Filter(columned, InColumn(c)), PlaceBefore);
      forall b
        ensures b in right ==> b in columned && b.column == c
        ensures b in left ==> b in columned && b.column in init
      {
        ColumnMember(columned, c, b);
        ColumnsMember(columned, init, b);
      }
      SortedWithin(right, rank);
      forall a, b | a in left && b in right
        ensures Reading(rank)(a, b)
      {
        var i :| 0 <= i < |init| && init[i] == a.column;
        assert columns[i] == a.column && ByRank(rank)(columns[i], columns[|columns| - 1]);
      }
      Sorting.SortedAppend(left, right, Reading(rank));
    }
  }

  lemma {:induction false} OrderedSorted(blocks: seq<Block>, order: seq<int>)
    ensures Sorting.Sorted(Ordered(blocks, order), Reading(RankMap(order)))
  {
    var body, rank := Body(blocks), RankMap(order);
    var columned := Columned(body);
    var columns := Sorting.Sort(ColumnsOf(columned), ByRank(rank));
    var left, right := Spanning(body), Columns(columned, columns);
    Orders(rank);
    Sorting.SortSorted(Sorting.Filter(body, (b: Block) => b.spans), PlaceBefore);
    forall b
      ensures b in columned <==> b in body && !b.spans
      ensures b in left <==> b in body && b.spans
      ensures b in right ==> b in columned
    {
      ColumnedMember(body, b);
      SpanningMember(body, b);
      ColumnsMember(columned, columns, b);
    }
    SortedWithin(left, rank);
    SortedColumns(columned, rank);
    ColumnsSorted(columned, columns, rank);
    Sorting.SortedAppend(left, right, Reading(rank));
  }

  /** The staged order - spanning blocks, then each column on its own - is one stable sort of the body
      by the reading key. */
  lemma {:induction false} OrderedIsOneSort(blocks: seq<Block>, order: seq<int>)
    ensures Ordered(blocks, order) == Sorting.Sort(Body(blocks), Reading(RankMap(order)))
  {
    var body, rank := Body(blocks), RankMap(order);
    var staged, sorted := Ordered(blocks, order), Sorting.Sort(body, Reading(rank));
    Orders(rank);
    OrderedSorted(blocks, order);
    Sorting.SortSorted(body, Reading(rank));
    forall k
      ensures Sorting.Ties(staged, k, Reading(rank)) == Sorting.Ties(sorted, k, Reading(rank))
    {
      Sorting.TiesPicked(staged, k, Reading(rank), Tied(rank, k));
      Sorting.TiesPicked(body, k, Reading(rank), Tied(rank, k));
      OrderedTies(blocks, order, k);
      Sorting.SortStable(body, k, Reading(rank));
    }
    Sorting.StableUnique(staged, sorted, Reading(rank));
  }

  // What the result guarantees.

  lemma {:induction false} IdsAppend(a: seq<Block>, b: seq<Block>)
    ensures Ids(a + b) == Ids(a) + Ids(b)
  {
  }

  lemma {:induction false} IdsRearranged(a: seq<Block>, b: seq<Block>)
    requires multiset(a) == multiset(b)
    ensures multiset(Ids(a)) == multiset(Ids(b))
  {
    assert |multiset(a)| == |multiset(b)|;
    if a != [] {
      var before, after := PullOut(a, b);
      var init, x := a[..|a| - 1], a[|a| - 1];
      IdsRearranged(init, before + after);
      assert a == init + [x];
      IdsAppend(init, [x]);
      IdsAppend(before, after);
      IdsAppend(before, [x]);
      IdsAppend(before + [x], after);
    }
  }

  lemma {:induction false} SplitContents(blocks: seq<Block>)
    ensures multiset(Body(blocks) + Decorations(blocks)) == multiset(blocks)
  {
    var body := (b: Block) => !b.isHeaderFooter;
    var decoration := (b: Block) => b.isHeaderFooter;
    Sorting.FilterContents(blocks, body);
    Sorting.FilterContents(blocks, decoration);
    Sorting.SortContents(Sorting.Filter(blocks, decoration), DecorationBefore);
    forall b
      ensures multiset(Body(blocks) + Decorations(blocks))[b] == multiset(blocks)[b]
    {
    }
  }

  /** Every block is in the body or among the decorations, as often as it was given. */
  lemma {:induction false} NothingLost(blocks: seq<Block>, order: seq<int>)
    ensures multiset(Ids(Ordered(blocks, order)) + Ids(Decorations(blocks))) == multiset(Ids(blocks))
    ensures forall b :: b in Ordered(blocks, order) <==> b in blocks && !b.isHeaderFooter
  {
    var ordered, body, decorations := Ordered(blocks, order), Body(blocks), Decorations(blocks);
    OrderedIsOneSort(blocks, order);
    Sorting.SortContents(body, Reading(RankMap(order)));
    SplitContents(blocks);
    assert multiset(ordered + decorations) == multiset(blocks);
    IdsRearranged(ordered + decorations, blocks);
    IdsAppend(ordered, decorations);
    forall b
      ensures b in ordered <==> b in blocks && !b.isHeaderFooter
    {
      Sorting.SortMember(body, Reading(RankMap(order)), b);
      Sorting.FilterMember(blocks, (b: Block) => !b.isHeaderFooter, b);
    }
  }

  /** Spanning blocks come first; a column is one contiguous run sorted by place; columns follow one
      another by rank. */
  lemma {:induction false} ReadingMeaning(blocks: seq<Block>, order: seq<int>, i: nat, j: nat)
    requires i < j < |Ordered(blocks, order)|
    ensures var ordered := Ordered(blocks, order);
            && (ordered[j].spans ==> ordered[i].spans)
            && (ordered[i].spans == ordered[j].spans && (ordered[i].spans || ordered[i].column == ordered[j].column)
                ==> PlaceBefore(ordered[i], ordered[j]))
            && (!ordered[i].spans && !ordered[j].spans
                ==> ColumnBefore(RankMap(order), ordered[i].column, ordered[j].column))
            && (!ordered[i].spans && ordered[i].column == ordered[j].column
                ==> forall m :: i < m < j ==> !ordered[m].spans && ordered[m].column == ordered[i].column)
  {
    var ordered, rank := Ordered(blocks, order), RankMap(order);
    OrderedSorted(blocks, order);
    assert Reading(rank)(ordered[i], ordered[j]);
    if !ordered[i].spans && ordered[i].column == ordered[j].column {
      forall m | i < m < j
        ensures !ordered[m].spans && ordered[m].column == ordered[i].column
      {
        assert Reading(rank)(ordered[i], ordered[m]) && Reading(rank)(ordered[m], ordered[j]);
      }
    }
  }

  ghost predicate DistinctOrders(blocks: seq<Block>) {
    forall a, b :: a in blocks && b in blocks && a.initialOrder == b.initialOrder ==> a == b
  }

  /** With distinct initial orders the input's order does not matter at all. */
  lemma {:induction false} InputOrderIrrelevant(a: seq<Block>, b: seq<Block>, order: seq<int>)
    requires multiset(a) == multiset(b) && DistinctOrders(a)
    ensures Ordered(a, order) == Ordered(b, order) && Decorations(a) == Decorations(b)
  {
    hide *;
    BodyCanonical(a, b, RankMap(order));
    OrderedIsOneSort(a, order);
    OrderedIsOneSort(b, order);
    DecorationsCanonical(a, b);
  }

  lemma {:induction false} BodyCanonical(a: seq<Block>, b: seq<Block>, rank: map<int, nat>)
    requires multiset(a) == multiset(b) && DistinctOrders(a)
    ensures Sorting.Sort(Body(a), Reading(rank)) == Sorting.Sort(Body(b), Reading(rank))
  {
    hide Sorting.Sort, Sorting.Filter, Sorting.Preorder;
    var keep := (b: Block) => !b.isHeaderFooter;
    Orders(rank);
    SameFilter(a, b, keep);
    forall x | x in Body(a)
      ensures x in a
    {
      Sorting.FilterMember(a, keep, x);
    }
    assert Sorting.NoTies(Body(a), Reading(rank));
    Sorting.SortCanonical(Body(a), Body(b), Reading(rank));
  }

  lemma {:induction false} DecorationsCanonical(a: seq<Block>, b: seq<Block>)
    requires multiset(a) == multiset(b) && DistinctOrders(a)
    ensures Decorations(a) == Decorations(b)
  {
    hide Sorting.Sort, Sorting.Filter, Sorting.Preorder;
    var keep := (b: Block) => b.isHeaderFooter;
    Orders(map[]);
    SameFilter(a, b, keep);
    var fa, fb := Sorting.Filter(a, keep), Sorting.Filter(b, keep);
    forall x | x in fa
      ensures x in a
    {
      Sorting.FilterMember(a, keep, x);
    }
    assert Sorting.NoTies(fa, DecorationBefore);
    Sorting.SortCanonical(fa, fb, DecorationBefore);
  }

  lemma {:induction false} SameFilter(a: seq<Block>, b: seq<Block>, keep: Block -> bool)
    requires multiset(a) == multiset(b)
    ensures multiset(Sorting.Filter(a, keep)) == multiset(Sorting.Filter(b, keep))
  {
    Sorting.FilterContents(a, keep);
    Sorting.FilterContents(b, keep);
  }

  /** Decorations keep their initial order; equal ones go from top to bottom and from left to right. */
  lemma {:induction false} DecorationsMeaning(blocks: seq<Block>, i: nat, j: nat)
    requires i < j < |Decorations(blocks)|
    ensures var a, b := Decorations(blocks)[i], Decorations(blocks)[j];
            && a.isHeaderFooter && a.initialOrder <= b.initialOrder
            && (a.initialOrder == b.initialOrder ==> a.y0 <= b.y0 && (a.y0 == b.y0 ==> a.x0 <= b.x0))
  {
    var keep := (b: Block) => b.isHeaderFooter;
    assert Sorting.Preorder(DecorationBefore);
    Sorting.SortSorted(Sorting.Filter(blocks, keep), DecorationBefore);
    Sorting.SortMember(Sorting.Filter(blocks, keep), DecorationBefore, Decorations(blocks)[i]);
    Sorting.FilterMember(blocks, keep, Decorations(blocks)[i]);
    assert DecorationBefore(Decorations(blocks)[i], Decorations(blocks)[j]);
  }

  /** Spanning blocks, and the blocks of one column, go from top to bottom, then from left to right, and by their
      initial order where they start at the same place. */
  lemma {:induction false} PlacesMeaning(blocks: seq<Block>, order: seq<int>, i: nat, j: nat)
    requires i < j < |Ordered(blocks, order)|
    ensures var a, b := Ordered(blocks, order)[i], Ordered(blocks, order)[j];
            a.spans == b.spans && (a.spans || a.column == b.column) ==>
              && a.y0 <= b.y0 && (a.y0 == b.y0 ==> a.x0 <= b.x0)
              && (a.y0 == b.y0 && a.x0 == b.x0 ==> a.initialOrder <= b.initialOrder)
  {
    hide Ordered;
    ReadingMeaning(blocks, order, i, j);
  }

  // The quality score.

  /** Two neighbours are read without ambiguity: not in one column, level, or apart. */
  predicate Apart(prev: Block, cur: Block) {
    prev.spans || cur.spans || prev.column != cur.column || prev.y0 == cur.y0 || prev.y1 <= cur.y0
  }

  lemma {:induction false} CrossesMeaning(blocks: seq<Block>, order: seq<int>, i: nat)
    requires i < |Ordered(blocks, order)| - 1
    ensures i in CrossingsAt(Ordered(blocks, order))
            <==> !Apart(Ordered(blocks, order)[i], Ordered(blocks, order)[i + 1])
  {
    hide Ordered;
    ReadingMeaning(blocks, order, i, i + 1);
  }

  /** The score is one exactly when no two neighbours of the result are ambiguous. */
  lemma {:induction false} QualityMeaning(blocks: seq<Block>, order: seq<int>)
    ensures var ordered := Ordered(blocks, order);
            var quality := Quality(|CrossingsAt(ordered)|);
            && 0.0 <= quality <= 1.0 && 10.0 * quality == (10 - Min(10, |CrossingsAt(ordered)|)) as real
            && (forall i: nat :: i in CrossingsAt(ordered) <==>
                i + 1 < |ordered| && !Apart(ordered[i], ordered[i + 1]))
            && (quality == 1.0 <==> forall i, j :: 0 <= i < |ordered| && j == i + 1 < |ordered| ==>
                Apart(ordered[i], ordered[j]))
  {
    hide Ordered, Apart, Crosses;
    var ordered := Ordered(blocks, order);
    var at := CrossingsAt(ordered);
    forall i: nat | i < |ordered| - 1
      ensures i in at <==> !Apart(ordered[i], ordered[i + 1])
    {
      CrossesMeaning(blocks, order, i);
    }
    if at != {} {
      var i :| i in at;
      assert at == {i} + (at - {i});
      assert !Apart(ordered[i], ordered[i + 1]);
    }
  }

  // Ranks.

  /** A listed column is ranked by its last position; the dictionary holds the listed columns only. */
  lemma {:induction false} RankMeaning(order: seq<int>)
    ensures forall c :: c in RankMap(order) <==> c in order
    ensures forall c :: c in order ==>
      var r := RankMap(order)[c];
      r < |order| && order[r] == c && forall i :: r < i < |order| ==> order[i] != c
    ensures |RankMap(order)| <= |order|
  {
    if order != [] {
      RankMeaning(order[..|order| - 1]);
    }
  }

  /** Do all listed columns come before all others? Blocks have columns from 0, whatever the list holds. */
  ghost predicate ListedFirst(order: seq<int>) {
    forall c: nat, d: nat :: c in order && d !in order ==> !ColumnBefore(RankMap(order), d, c)
  }

  /** Unlisted columns are ranked by the number of distinct listed columns. Listed columns precede them
      exactly when no listed column has a larger rank, and one of that very rank has no unlisted column
      of a smaller number. */
  lemma {:induction false} ListedFirstWhen(order: seq<int>)
    ensures ListedFirst(order) <==>
            forall c: nat :: c in order ==>
              var r, n := RankOf(RankMap(order), c), |RankMap(order)|;
              r <= n && (r == n ==> forall d :: 0 <= d < c ==> d in order)
  {
    RankMeaning(order);
    var rank := RankMap(order);
    var unlisted := Unlisted(order);
    if ListedFirst(order) {
      forall c: nat | c in order
        ensures RankOf(rank, c) <= |rank|
        ensures RankOf(rank, c) == |rank| ==> forall d :: 0 <= d < c ==> d in order
      {
        assert !ColumnBefore(rank, unlisted, c);
        forall d: nat | d < c && RankOf(rank, c) == |rank|
          ensures d in order
        {
          assert d !in order ==> !ColumnBefore(rank, d, c);
        }
      }
    }
  }

  lemma {:induction false} Unlisted(order: seq<int>) returns (c: nat)
    ensures forall d :: d in order ==> d < c
  {
    c := 0;
    for i := 0 to |order|
      invariant forall d :: d in order[..i] ==> d < c
    {
      assert order[..i + 1] == order[..i] + [order[i]];
      c := Max(c, order[i] + 1);
    }
    assert order[..|order|] == order;
  }
}
