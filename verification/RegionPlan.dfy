/** The fallback plan for problem regions: overlapping regions merged, widened by a margin, and clipped
    to the page. */
module RegionPlan {
  import opened Seqs
  import Sorting

  datatype Box = Box(x0: real, y0: real, x1: real, y1: real)

  datatype Priority = OcrGeneric | FormulaTable

  datatype Region = Region(page: nat, box: Box, priority: Priority, reason: string)

  /** The page size and the margin ratio of a request. */
  datatype Frame = Frame(width: real, height: real, margin: real)

  predicate Proper(b: Box) {
    b.x0 < b.x1 && b.y0 < b.y1
  }

  predicate ProperFrame(f: Frame) {
    f.width > 0.0 && f.height > 0.0 && 0.10 <= f.margin <= 0.15
  }

  predicate Intersect(a: Box, b: Box) {
    !(a.x1 <= b.x0 || b.x1 <= a.x0 || a.y1 <= b.y0 || b.y1 <= a.y0)
  }

  /** Key `(page_no, y0, x0)`. */
  predicate RegionBefore(a: Region, b: Region) {
    a.page < b.page || (a.page == b.page && (a.box.y0 < b.box.y0 || (a.box.y0 == b.box.y0 && a.box.x0 <= b.box.x0)))
  }

  /** The distinct non-empty reasons, joined. */
  function MergeReasons(a: string, b: string): string {
    if a == "" then b else if b == "" || a == b then a else a + "; " + b
  }

  function MinReal(a: real, b: real): real {
    if a < b then a else b
  }

  function MaxReal(a: real, b: real): real {
    if a < b then b else a
  }

  function Union(a: Box, b: Box): Box {
    Box(MinReal(a.x0, b.x0), MinReal(a.y0, b.y0), MaxReal(a.x1, b.x1), MaxReal(a.y1, b.y1))
  }

  function Absorb(tail: Region, r: Region): Region {
    Region(tail.page, Union(tail.box, r.box), if tail.priority == FormulaTable then tail.priority else r.priority,
           MergeReasons(tail.reason, r.reason))
  }

  predicate Joins(tail: Region, r: Region) {
    tail.page == r.page && Intersect(tail.box, r.box)
  }

  /** One region after the other, against the last merged region only. */
  function Merged(rs: seq<Region>): seq<Region> {
    if rs == [] then []
    else
      var m, r := Merged(rs[..|rs| - 1]), rs[|rs| - 1];
      if m == [] || !Joins(m[|m| - 1], r) then m + [r] else m[..|m| - 1] + [Absorb(m[|m| - 1], r)]
  }

  /** Boxes intersect when they have a point in common that lies inside both; touching is not enough. */
  lemma {:induction false} IntersectMeaning(a: Box, b: Box)
    requires Proper(a) && Proper(b)
    ensures Intersect(a, b) <==>
            exists x, y :: Inside(x, y, a) && Inside(x, y, b)
  {
    if Intersect(a, b) {
      var x := (MaxReal(a.x0, b.x0) + MinReal(a.x1, b.x1)) / 2.0;
      var y := (MaxReal(a.y0, b.y0) + MinReal(a.y1, b.y1)) / 2.0;
      assert Inside(x, y, a) && Inside(x, y, b);
    }
  }

  predicate Inside(x: real, y: real, b: Box) {
    b.x0 < x < b.x1 && b.y0 < y < b.y1
  }

  // What the merging means: the regions fall into runs.

  function Hull(run: seq<Region>): Region
    requires run != []
  {
    if |run| == 1 then run[0] else Absorb(Hull(run[..|run| - 1]), run[|run| - 1])
  }

  /** Each region of a run joins the hull of those before it. */
  ghost predicate Run(run: seq<Region>) {
    run != [] && forall i :: 0 < i < |run| ==> Joins(Hull(run[..i]), run[i])
  }

  ghost predicate RunsOf(runs: seq<seq<Region>>, rs: seq<Region>) {
    && Flatten(runs) == rs
    && (forall k :: 0 <= k < |runs| ==> Run(runs[k]))
    && (forall j, k :: 0 <= j && k == j + 1 < |runs| && Run(runs[j]) && Run(runs[k]) ==>
        !Joins(Hull(runs[j]), runs[k][0]))
  }

  ghost predicate Hulls(out: seq<Region>, runs: seq<seq<Region>>) {
    |out| == |runs| && forall k :: 0 <= k < |runs| ==> Run(runs[k]) && out[k] == Hull(runs[k])
  }

  lemma {:induction false} RunGrows(run: seq<Region>, r: Region)
    requires Run(run) && Joins(Hull(run), r)
    ensures Run(run + [r]) && Hull(run + [r]) == Absorb(Hull(run), r) && (run + [r])[0] == run[0]
  {
    var more := run + [r];
    assert more[..|run|] == run;
    forall i | 0 < i < |more|
      ensures Joins(Hull(more[..i]), more[i])
    {
      if i < |run| {
        assert more[..i] == run[..i];
      }
    }
  }

  lemma {:induction false} RunsNew(before: seq<seq<Region>>, rs: seq<Region>, r: Region, out: seq<Region>)
    requires RunsOf(before, rs) && Hulls(out, before) && (out == [] || !Joins(out[|out| - 1], r))
    ensures RunsOf(before + [[r]], rs + [r]) && Hulls(out + [r], before + [[r]])
  {
    hide Hull, Run, Joins, Flatten;
    OneRun(r);
    FlattenSnoc(before, [r]);
  }

  lemma {:induction false} RunsGrow(before: seq<seq<Region>>, rs: seq<Region>, r: Region, out: seq<Region>)
    requires RunsOf(before, rs) && Hulls(out, before) && out != [] && Joins(out[|out| - 1], r)
    ensures var init, last := before[..|before| - 1], before[|before| - 1];
            && RunsOf(init + [last + [r]], rs + [r])
            && Hulls(out[..|out| - 1] + [Absorb(out[|out| - 1], r)], init + [last + [r]])
  {
    var init, last := before[..|before| - 1], before[|before| - 1];
    RunGrows(last, r);
    FlattenGrow(before, r);
    hide Hull, Run, Joins, Flatten, Absorb;
    var runs := init + [last + [r]];
    assert forall k :: 0 <= k < |init| ==> runs[k] == before[k];
  }

  /** The regions fall into runs, and the merged regions are the hulls of the runs. */
  lemma {:induction false} MergedAreHulls(rs: seq<Region>) returns (runs: seq<seq<Region>>)
    ensures RunsOf(runs, rs) && Hulls(Merged(rs), runs)
  {
    if rs == [] {
      runs := [];
    } else {
      hide RunsOf, Hulls, Joins;
      var init, r := rs[..|rs| - 1], rs[|rs| - 1];
      var before := MergedAreHulls(init);
      var m := Merged(init);
      assert rs == init + [r];
      if m == [] || !Joins(m[|m| - 1], r) {
        RunsNew(before, init, r, m);
        runs := before + [[r]];
      } else {
        RunsGrow(before, init, r, m);
        runs := before[..|before| - 1] + [before[|before| - 1] + [r]];
      }
    }
  }

  lemma {:induction false} OneRun(r: Region)
    ensures Run([r]) && Hull([r]) == r
  {
  }

  predicate Contains(a: Box, b: Box) {
    a.x0 <= b.x0 && a.y0 <= b.y0 && b.x1 <= a.x1 && b.y1 <= a.y1
  }

  ghost predicate Bounds(b: Box, run: seq<Region>) {
    forall i :: 0 <= i < |run| ==> Contains(b, run[i].box)
  }

  lemma {:induction false} UnionLeast(a: Box, b: Box, c: Box)
    ensures Contains(c, Union(a, b)) <==> Contains(c, a) && Contains(c, b)
    ensures Contains(Union(a, b), a) && Contains(Union(a, b), b)
  {
  }

  lemma {:induction false} BoundsSnoc(b: Box, run: seq<Region>, r: Region)
    ensures Bounds(b, run + [r]) <==> Bounds(b, run) && Contains(b, r.box)
  {
    hide Contains;
    var more := run + [r];
    assert forall i :: 0 <= i < |run| ==> more[i] == run[i];
    assert more[|run|] == r;
  }

  /** The hull of a run bounds every region of it, and nothing smaller does. */
  lemma {:induction false} HullLeast(run: seq<Region>, b: Box)
    requires run != []
    ensures Bounds(b, run) <==> Contains(b, Hull(run).box)
  {
    hide Contains, Union;
    if |run| > 1 {
      var init, r := run[..|run| - 1], run[|run| - 1];
      assert run == init + [r];
      HullLeast(init, b);
      BoundsSnoc(b, init, r);
      UnionLeast(Hull(init).box, r.box, b);
    }
  }

  /** The hull of a run: on the page of all its regions, around all of them, and no larger than it has
      to be; of the special kind exactly when one of them is. */
  lemma {:induction false} HullMeaning(run: seq<Region>)
    requires Run(run)
    ensures var h := Hull(run);
            && (forall i :: 0 <= i < |run| ==> run[i].page == h.page)
            && (forall b :: Bounds(b, run) <==> Contains(b, h.box))
            && Bounds(h.box, run)
            && (h.priority == FormulaTable <==> exists i :: 0 <= i < |run| && run[i].priority == FormulaTable)
  {
    forall b
      ensures Bounds(b, run) <==> Contains(b, Hull(run).box)
    {
      HullLeast(run, b);
    }
    HullPage(run);
    HullPriority(run);
  }

  lemma {:induction false} HullPage(run: seq<Region>)
    requires Run(run)
    ensures forall i :: 0 <= i < |run| ==> run[i].page == Hull(run).page
  {
    hide Run, Absorb, Joins;
    if |run| > 1 {
      var init, last := run[..|run| - 1], run[|run| - 1];
      assert Hull(run) == Absorb(Hull(init), last);
      hide Hull;
      RunInit(run);
      HullPage(init);
      AbsorbPage(Hull(init), last);
      assert forall i :: 0 <= i < |init| ==> init[i] == run[i];
    }
  }

  lemma {:induction false} AbsorbPage(tail: Region, r: Region)
    ensures Absorb(tail, r).page == tail.page
    ensures Joins(tail, r) ==> r.page == tail.page
  {
  }

  lemma {:induction false} RunInit(run: seq<Region>)
    requires Run(run) && |run| > 1
    ensures var init := run[..|run| - 1];
            Run(init) && Joins(Hull(init), run[|run| - 1])
  {
    hide Hull, Joins;
    var init := run[..|run| - 1];
    assert forall i :: 0 < i < |init| ==> init[..i] == run[..i] && init[i] == run[i];
  }

  lemma {:induction false} HullPriority(run: seq<Region>)
    requires run != []
    ensures Hull(run).priority == FormulaTable <==> exists i :: 0 <= i < |run| && run[i].priority == FormulaTable
  {
    if |run| > 1 {
      var init := run[..|run| - 1];
      HullPriority(init);
      assert forall i :: 0 <= i < |init| ==> init[i] == run[i];
    }
  }

  /** The reasons that are not empty, once if they are the same. */
  lemma {:induction false} MergeReasonsMeaning(a: string, b: string)
    ensures MergeReasons(a, b) == Join("; ", (if a != "" then [a] else []) + (if b != "" && b != a then [b] else []))
  {
    var parts := (if a != "" then [a] else []) + (if b != "" && b != a then [b] else []);
    if |parts| == 2 {
      assert parts == [a, b] && parts[1..] == [b];
      assert Join("; ", [b]) == b;
    }
  }

  ghost predicate Mentions(s: string, part: string) {
    exists before, after :: s == before + part + after
  }

  lemma {:induction false} MergeMentions(a: string, b: string, part: string)
    ensures Mentions(a, part) || part == b ==> Mentions(MergeReasons(a, b), part)
  {
    var m := MergeReasons(a, b);
    if part == b {
      MentionsEnd(if a == "" then "" else if b == "" || a == b then "" else a + "; ", b);
      if b == "" {
        assert m == "" + "" + m;
      }
      assert a == b ==> m == "" + b;
    }
    if Mentions(a, part) {
      var before, after :| a == before + part + after;
      if m != a {
        MentionsFront(before, part, after, m);
      }
    }
  }

  lemma {:induction false} MentionsEnd(front: string, part: string)
    ensures Mentions(front + part, part)
  {
    assert front + part == front + part + "";
  }

  lemma {:induction false} MentionsFront(before: string, part: string, after: string, s: string)
    requires before + part + after <= s || before + part + after == ""
    ensures Mentions(s, part)
  {
    if before + part + after == "" {
      assert part == "" && s == "" + part + s;
    } else {
      var rest := s[|before + part + after|..];
      assert s == before + part + (after + rest);
    }
  }

  /** The reason of a hull mentions the reason of each of its regions. */
  lemma {:induction false} HullReasons(run: seq<Region>, i: nat)
    requires i < |run|
    ensures Mentions(Hull(run).reason, run[i].reason)
  {
    if |run| == 1 {
      MentionsEnd("", run[0].reason);
      assert "" + run[0].reason == run[0].reason;
    } else {
      hide Mentions, MergeReasons;
      var init, r := run[..|run| - 1], run[|run| - 1];
      MergeMentions(Hull(init).reason, r.reason, run[i].reason);
      if i < |init| {
        HullReasons(init, i);
      }
    }
  }

  /** Regions are taken page by page, from top to bottom, and from left to right. */
  lemma {:induction false} TakenInOrder(regions: seq<Region>, i: nat, j: nat)
    requires i < j < |Sorting.Sort(regions, RegionBefore)|
    ensures var a, b := Sorting.Sort(regions, RegionBefore)[i], Sorting.Sort(regions, RegionBefore)[j];
            && a.page <= b.page
            && (a.page == b.page ==> a.box.y0 <= b.box.y0 && (a.box.y0 == b.box.y0 ==> a.box.x0 <= b.box.x0))
  {
    var sorted := Sorting.Sort(regions, RegionBefore);
    Sorting.SortSorted(regions, RegionBefore);
    assert RegionBefore(sorted[i], sorted[j]);
  }

  // Widening.

  function Margin(from: real, to: real, f: Frame): real {
    (to - from) * f.margin
  }

  function Expand(r: Region, f: Frame): Result<Region, string> {
    var dx, dy := Margin(r.box.x0, r.box.x1, f), Margin(r.box.y0, r.box.y1, f);
    var box := Box(MaxReal(0.0, r.box.x0 - dx), MaxReal(0.0, r.box.y0 - dy),
                   MinReal(f.width, r.box.x1 + dx), MinReal(f.height, r.box.y1 + dy));
    if box.x0 >= box.x1 then Err("BOUNDING_BOX_X_ORDER_INVALID")
    else if box.y0 >= box.y1 then Err("BOUNDING_BOX_Y_ORDER_INVALID")
    else Ok(r.(box := box))
  }

  function ExpandAll(rs: seq<Region>, f: Frame): (r: Result<seq<Region>, string>)
    ensures r.Ok? ==> |r.value| == |rs| && forall k :: 0 <= k < |rs| ==> Expand(rs[k], f) == Ok(r.value[k])
    ensures r.Err? ==> exists k :: 0 <= k < |rs| && Expand(rs[k], f).Err?
  {
    if rs == [] then Ok([])
    else
      var init := ExpandAll(rs[..|rs| - 1], f);
      if init.Err? then init
      else
        var last := Expand(rs[|rs| - 1], f);
        if last.Err? then Err(last.error) else Ok(init.value + [last.value])
  }

  /** Widened by its margin, the box still misses the page. */
  predicate OffPage(b: Box, f: Frame) {
    var dx, dy := Margin(b.x0, b.x1, f), Margin(b.y0, b.y1, f);
    b.x0 - dx >= f.width || b.x1 + dx <= 0.0 || b.y0 - dy >= f.height || b.y1 + dy <= 0.0
  }

  predicate OnPage(b: Box, f: Frame) {
    0.0 <= b.x0 && 0.0 <= b.y0 && b.x1 <= f.width && b.y1 <= f.height
  }

  /** The part of a box that lies on the page. */
  function Clip(b: Box, f: Frame): Box {
    Box(MaxReal(0.0, b.x0), MaxReal(0.0, b.y0), MinReal(f.width, b.x1), MinReal(f.height, b.y1))
  }

  lemma {:induction false} ExpandMeaning(r: Region, f: Frame)
    requires Proper(r.box) && ProperFrame(f)
    ensures Expand(r, f).Err? <==> OffPage(r.box, f)
    ensures Expand(r, f).Ok? ==>
              var o := Expand(r, f).value;
              o.page == r.page && Proper(o.box) && OnPage(o.box, f) && Contains(o.box, Clip(r.box, f))
  {
    MarginPositive(r.box.x0, r.box.x1, f);
    MarginPositive(r.box.y0, r.box.y1, f);
    hide MinReal, MaxReal, Margin;
    Widened(r.box.x0, r.box.x1, Margin(r.box.x0, r.box.x1, f), f.width);
    Widened(r.box.y0, r.box.y1, Margin(r.box.y0, r.box.y1, f), f.height);
  }

  /** The error names the direction in which the widened box misses the page, the horizontal one first. */
  lemma {:induction false} ExpandErrors(r: Region, f: Frame)
    requires Proper(r.box) && ProperFrame(f)
    ensures var dx, dy := Margin(r.box.x0, r.box.x1, f), Margin(r.box.y0, r.box.y1, f);
            var beside := r.box.x0 - dx >= f.width || r.box.x1 + dx <= 0.0;
            && (Expand(r, f) == Err("BOUNDING_BOX_X_ORDER_INVALID") <==> beside)
            && (Expand(r, f) == Err("BOUNDING_BOX_Y_ORDER_INVALID") <==>
                !beside && (r.box.y0 - dy >= f.height || r.box.y1 + dy <= 0.0))
  {
    MarginPositive(r.box.x0, r.box.x1, f);
    MarginPositive(r.box.y0, r.box.y1, f);
    hide MinReal, MaxReal, Margin;
    Widened(r.box.x0, r.box.x1, Margin(r.box.x0, r.box.x1, f), f.width);
    Widened(r.box.y0, r.box.y1, Margin(r.box.y0, r.box.y1, f), f.height);
  }

  lemma {:induction false} MarginPositive(from: real, to: real, f: Frame)
    requires from < to && f.margin > 0.0
    ensures Margin(from, to, f) > 0.0
  {
    Product(to - from, f.margin);
  }

  lemma {:induction false} Product(a: real, b: real)
    requires a > 0.0 && b > 0.0
    ensures a * b > 0.0
  {
  }

  lemma {:induction false} Widened(a: real, b: real, d: real, size: real)
    requires a < b && d > 0.0 && size > 0.0
    ensures var lo, hi := MaxReal(0.0, a - d), MinReal(size, b + d);
            && (lo >= hi <==> a - d >= size || b + d <= 0.0)
            && 0.0 <= lo <= MaxReal(0.0, a) && MinReal(size, b) <= hi <= size
  {
  }

  function Plan(regions: seq<Region>, f: Frame): Result<seq<Region>, string> {
    ExpandAll(Merged(Sorting.Sort(regions, RegionBefore)), f)
  }

  /** `plan_region_fallback`. */
  method PlanRegionFallback(regions: seq<Region>, f: Frame) returns (r: Result<seq<Region>, string>)
    ensures r == Plan(regions, f)
  {
    var sorted := Sorting.Sort(regions, RegionBefore);
    var merged: seq<Region> := [];
    for i := 0 to |sorted|
      invariant merged == Merged(sorted[..i])
    {
      assert sorted[..i + 1][..i] == sorted[..i];
      var region := sorted[i];
      if merged == [] || merged[|merged| - 1].page != region.page || !Intersect(merged[|merged| - 1].box, region.box) {
        merged := merged + [region];
      } else {
        var tail := merged[|merged| - 1];
        var priority := if Rank(tail.priority) >= Rank(region.priority) then tail.priority else region.priority;
        var hull := Union(tail.box, region.box);
        merged := merged[..|merged| - 1]
          + [Region(tail.page, hull, priority, MergeReasons(tail.reason, region.reason))];
      }
    }
    assert sorted[..|sorted|] == sorted;
    r := ExpandAll(merged, f);
  }

  function Rank(p: Priority): nat {
    if p == FormulaTable then 1 else 0
  }

  // The plan covers the problem regions.

  lemma {:induction false} FlattenMember<T>(parts: seq<seq<T>>, x: T) returns (k: nat, i: nat)
    requires x in Flatten(parts)
    ensures k < |parts| && i < |parts[k]| && parts[k][i] == x
  {
    if x in parts[0] {
      k := 0;
      i :| 0 <= i < |parts[0]| && parts[0][i] == x;
    } else {
      k, i := FlattenMember(parts[1..], x);
      k := k + 1;
    }
  }

  predicate AllProper(rs: seq<Region>) {
    forall i :: 0 <= i < |rs| ==> Proper(rs[i].box)
  }

  lemma {:induction false} MergedProper(rs: seq<Region>)
    requires AllProper(rs)
    ensures AllProper(Merged(rs))
  {
    if rs != [] {
      MergedProper(rs[..|rs| - 1]);
    }
  }

  ghost predicate CoveredBy(r: Region, out: seq<Region>, f: Frame) {
    exists k :: 0 <= k < |out| && out[k].page == r.page && Contains(out[k].box, Clip(r.box, f))
  }

  lemma {:induction false} ClipMonotone(a: Box, b: Box, f: Frame)
    requires Contains(a, b)
    ensures Contains(Clip(a, f), Clip(b, f))
  {
  }

  /** A plan exists exactly when no merged region misses its page; then every problem region is
      covered, as far as it lies on the page, by a planned region on its page, and all stay within. */
  lemma {:induction false} PlanCovers(regions: seq<Region>, f: Frame)
    requires ProperFrame(f) && AllProper(regions)
    ensures var merged := Merged(Sorting.Sort(regions, RegionBefore));
            Plan(regions, f).Ok? <==> forall k :: 0 <= k < |merged| ==> !OffPage(merged[k].box, f)
    ensures Plan(regions, f).Ok? ==>
              && (forall k :: 0 <= k < |Plan(regions, f).value| ==> OnPage(Plan(regions, f).value[k].box, f))
              && (forall r :: r in regions ==> CoveredBy(r, Plan(regions, f).value, f))
  {
    hide OffPage, OnPage, Contains, Clip, Expand, Hull, Merged, Proper;
    var sorted := Sorting.Sort(regions, RegionBefore);
    var merged := Merged(sorted);
    SortedProper(regions);
    MergedProper(sorted);
    forall k | 0 <= k < |merged|
      ensures Expand(merged[k], f).Err? <==> OffPage(merged[k].box, f)
      ensures Expand(merged[k], f).Ok? ==> OnPage(Expand(merged[k], f).value.box, f)
    {
      ExpandMeaning(merged[k], f);
    }
    if Plan(regions, f).Ok? {
      forall r | r in regions
        ensures CoveredBy(r, Plan(regions, f).value, f)
      {
        Sorting.SortMember(regions, RegionBefore, r);
        RegionCovered(sorted, Plan(regions, f).value, f, r);
      }
    }
  }

  lemma {:induction false} SortedProper(regions: seq<Region>)
    requires AllProper(regions)
    ensures var sorted := Sorting.Sort(regions, RegionBefore);
            AllProper(sorted)
  {
    hide Proper;
    var sorted := Sorting.Sort(regions, RegionBefore);
    forall i | 0 <= i < |sorted|
      ensures Proper(sorted[i].box)
    {
      Sorting.SortMember(regions, RegionBefore, sorted[i]);
    }
  }

  lemma {:induction false} RegionCovered(sorted: seq<Region>, out: seq<Region>, f: Frame, r: Region)
    requires ProperFrame(f) && AllProper(sorted)
    requires ExpandAll(Merged(sorted), f) == Ok(out) && r in sorted
    ensures CoveredBy(r, out, f)
  {
    hide Contains, Clip, Expand, Hull, Merged, Proper;
    var merged := Merged(sorted);
    var runs := MergedAreHulls(sorted);
    var k, i := FlattenMember(runs, r);
    HullMeaning(runs[k]);
    assert Bounds(merged[k].box, runs[k]);
    MergedProper(sorted);
    ExpandMeaning(merged[k], f);
    ClipMonotone(merged[k].box, r.box, f);
    ContainsThrough(out[k].box, Clip(merged[k].box, f), Clip(r.box, f));
  }

  lemma {:induction false} ContainsThrough(a: Box, b: Box, c: Box)
    requires Contains(a, b) && Contains(b, c)
    ensures Contains(a, c)
  {
  }

  // When merged regions are disjoint.

  ghost predicate Disjoint(m: seq<Region>) {
    forall j, k :: 0 <= j < k < |m| ==> !Joins(m[j], m[k])
  }

  /** Taking in `r`, by a new region or by a larger tail, makes the last hull meet an earlier merged region. */
  ghost predicate Collides(m: seq<Region>, r: Region) {
    if m == [] || !Joins(m[|m| - 1], r) then exists j :: 0 <= j < |m| - 1 && Joins(m[j], r)
    else exists j :: 0 <= j < |m| - 1 && Joins(m[j], Absorb(m[|m| - 1], r))
  }

  lemma {:induction false} JoinsGrow(a: Region, b: Region, r: Region)
    requires Joins(a, b)
    ensures Joins(a, Absorb(b, r))
  {
  }

  lemma {:induction false} DisjointSnoc(m: seq<Region>, h: Region)
    ensures Disjoint(m + [h]) <==> Disjoint(m) && forall j :: 0 <= j < |m| ==> !Joins(m[j], h)
  {
    hide Joins;
    var all := m + [h];
    assert forall j :: 0 <= j < |m| ==> all[j] == m[j];
    assert all[|m|] == h;
  }

  lemma {:induction false} DisjointStep(m: seq<Region>, r: Region, next: seq<Region>)
    requires next == if m == [] || !Joins(m[|m| - 1], r) then m + [r] else m[..|m| - 1] + [Absorb(m[|m| - 1], r)]
    ensures Disjoint(next) <==> Disjoint(m) && !Collides(m, r)
  {
    hide Disjoint, Absorb, Joins;
    if m == [] || !Joins(m[|m| - 1], r) {
      DisjointSnoc(m, r);
    } else {
      var init, tail := m[..|m| - 1], m[|m| - 1];
      assert m == init + [tail];
      DisjointSnoc(init, tail);
      DisjointSnoc(init, Absorb(tail, r));
      forall j | 0 <= j < |init| && Joins(init[j], tail)
        ensures Joins(init[j], Absorb(tail, r))
      {
        JoinsGrow(init[j], tail, r);
      }
    }
  }

  /** The `n`th region collides with the merged regions before it. */
  ghost predicate CollidesAt(rs: seq<Region>, n: nat)
    requires n < |rs|
  {
    Collides(Merged(rs[..n]), rs[n])
  }

  lemma {:induction false} CollidesSame(init: seq<Region>, rs: seq<Region>)
    requires rs != [] && init == rs[..|rs| - 1]
    ensures forall n :: 0 <= n < |init| ==> CollidesAt(init, n) == CollidesAt(rs, n)
    ensures CollidesAt(rs, |init|) == Collides(Merged(init), rs[|init|])
  {
    hide Collides, Merged;
    forall n | 0 <= n < |init|
      ensures CollidesAt(init, n) == CollidesAt(rs, n)
    {
      assert init[..n] == rs[..n] && init[n] == rs[n];
    }
  }

  /** Only the last merged region is compared, so merged regions are disjoint exactly when no step makes the
      last hull meet an earlier one: neither by a new region that misses the tail, nor by growing the tail. */
  lemma {:induction false} DisjointWhen(rs: seq<Region>)
    ensures Disjoint(Merged(rs)) <==> forall n :: 0 <= n < |rs| ==> !CollidesAt(rs, n)
  {
    if rs != [] {
      var init, r := rs[..|rs| - 1], rs[|rs| - 1];
      DisjointStep(Merged(init), r, Merged(rs));
      hide *;
      DisjointWhen(init);
      CollidesSame(init, rs);
    } else {
      assert Disjoint(Merged(rs));
    }
  }

  /** Every two problem regions of a page share a vertical line, as in a text of one column. */
  ghost predicate OneColumn(rs: seq<Region>) {
    forall a, b :: a in rs && b in rs && a.page == b.page ==> a.box.x0 < b.box.x1
  }

  /** On each page, every merged region ends above the ones after it. */
  ghost predicate Stacked(m: seq<Region>) {
    forall j, k :: 0 <= j < k < |m| ==>
      m[j].page < m[k].page || (m[j].page == m[k].page && m[j].box.y1 <= m[k].box.y0)
  }

  /** The tail starts above the last region taken in and holds it. */
  predicate TailHolds(m: seq<Region>, last: Region) {
    m != [] && m[|m| - 1].page == last.page && Contains(m[|m| - 1].box, last.box)
  }

  lemma {:induction false} StackedSnoc(m: seq<Region>, h: Region)
    ensures Stacked(m + [h]) <==>
            Stacked(m) && forall j :: 0 <= j < |m| ==>
              m[j].page < h.page || (m[j].page == h.page && m[j].box.y1 <= h.box.y0)
  {
    var all := m + [h];
    assert forall j :: 0 <= j < |m| ==> all[j] == m[j];
    assert all[|m|] == h;
  }

  lemma {:induction false} TailAbove(tail: Region, last: Region, r: Region)
    requires tail.page == last.page && Contains(tail.box, last.box) && RegionBefore(last, r) && Proper(last.box)
             && Proper(r.box)
    requires last.page == r.page ==> last.box.x0 < r.box.x1 && r.box.x0 < last.box.x1
    ensures !Joins(tail, r) ==> tail.page < r.page || (tail.page == r.page && tail.box.y1 <= r.box.y0)
    ensures Joins(tail, r) ==> Absorb(tail, r).page == tail.page && Absorb(tail, r).box.y0 == tail.box.y0
    ensures Joins(tail, r) ==> Contains(Absorb(tail, r).box, r.box)
  {
  }

  lemma {:induction false} StackedStep(m: seq<Region>, last: Region, r: Region, next: seq<Region>)
    requires Stacked(m) && TailHolds(m, last) && RegionBefore(last, r) && Proper(last.box) && Proper(r.box)
    requires last.page == r.page ==> last.box.x0 < r.box.x1 && r.box.x0 < last.box.x1
    requires next == if !Joins(m[|m| - 1], r) then m + [r] else m[..|m| - 1] + [Absorb(m[|m| - 1], r)]
    ensures Stacked(next) && TailHolds(next, r)
  {
    var init, tail := m[..|m| - 1], m[|m| - 1];
    TailAbove(tail, last, r);
    assert m == init + [tail];
    StackedSnoc(init, tail);
    hide Stacked, Joins, Absorb;
    if Joins(tail, r) {
      StackedSnoc(init, Absorb(tail, r));
    } else {
      assert forall j :: 0 <= j < |init| ==> m[j] == init[j];
      StackedSnoc(m, r);
    }
  }

  lemma {:induction false} MergedStacks(rs: seq<Region>)
    requires AllProper(rs) && OneColumn(rs) && Sorting.Sorted(rs, RegionBefore)
    ensures Stacked(Merged(rs)) && (rs != [] ==> TailHolds(Merged(rs), rs[|rs| - 1]))
  {
    if |rs| == 1 {
      OneMerged(rs[0]);
      assert rs == [rs[0]];
    } else if rs != [] {
      var init, r := rs[..|rs| - 1], rs[|rs| - 1];
      var last := init[|init| - 1];
      ColumnInit(rs);
      hide *;
      MergedStacks(init);
      TailsNonempty(Merged(init), last);
      MergedSnoc(init, r);
      StackedStep(Merged(init), last, r, Merged(rs));
    }
  }

  lemma {:induction false} OneMerged(r: Region)
    ensures Stacked(Merged([r])) && TailHolds(Merged([r]), r)
  {
    assert [r][..0] == [] && [] + [r] == [r];
  }

  lemma {:induction false} MergedSnoc(init: seq<Region>, r: Region)
    requires Merged(init) != []
    ensures var m := Merged(init);
            Merged(init + [r]) == if !Joins(m[|m| - 1], r) then m + [r] else m[..|m| - 1] + [Absorb(m[|m| - 1], r)]
  {
    assert (init + [r])[..|init|] == init;
  }

  lemma {:induction false} ColumnInit(rs: seq<Region>)
    requires AllProper(rs) && OneColumn(rs) && Sorting.Sorted(rs, RegionBefore) && |rs| > 1
    ensures var init, r := rs[..|rs| - 1], rs[|rs| - 1];
            var last := init[|init| - 1];
            && rs == init + [r] && AllProper(init) && OneColumn(init) && Sorting.Sorted(init, RegionBefore)
            && RegionBefore(last, r) && Proper(last.box) && Proper(r.box)
            && (last.page == r.page ==> last.box.x0 < r.box.x1 && r.box.x0 < last.box.x1)
  {
    hide RegionBefore, Proper;
    var init, r := rs[..|rs| - 1], rs[|rs| - 1];
    assert forall i :: 0 <= i < |init| ==> init[i] == rs[i];
    assert init[|init| - 1] == rs[|rs| - 2] && rs[|rs| - 2] in rs && r in rs;
  }

  lemma {:induction false} TailsNonempty(m: seq<Region>, last: Region)
    requires TailHolds(m, last)
    ensures m != []
  {
  }

  lemma {:induction false} StackedDisjoint(m: seq<Region>)
    requires Stacked(m)
    ensures Disjoint(m)
  {
  }

  /** Regions of one column merge into hulls that stack on each page, and so are disjoint. */
  lemma {:induction false} ColumnStacks(regions: seq<Region>)
    requires AllProper(regions) && OneColumn(regions)
    ensures var m := Merged(Sorting.Sort(regions, RegionBefore));
            Stacked(m) && Disjoint(m)
  {
    hide Stacked, Disjoint, OneColumn;
    var sorted := Sorting.Sort(regions, RegionBefore);
    SortedProper(regions);
    Sorting.SortSorted(regions, RegionBefore);
    SortedColumn(regions);
    MergedStacks(sorted);
    StackedDisjoint(Merged(sorted));
  }

  lemma {:induction false} SortedColumn(regions: seq<Region>)
    requires OneColumn(regions)
    ensures var sorted := Sorting.Sort(regions, RegionBefore);
            OneColumn(sorted)
  {
    var sorted := Sorting.Sort(regions, RegionBefore);
    forall x: Region
      ensures x in sorted <==> x in regions
    {
      Sorting.SortMember(regions, RegionBefore, x);
    }
  }

  /** Across columns a later hull can grow back over an earlier one. */
  lemma {:induction false} HullsMayOverlap(a: Region, b: Region, c: Region)
    requires a == Region(1, Box(0.0, 0.0, 10.0, 100.0), OcrGeneric, "a")
    requires b == Region(1, Box(50.0, 10.0, 60.0, 20.0), OcrGeneric, "b")
    requires c == Region(1, Box(5.0, 15.0, 55.0, 30.0), OcrGeneric, "c")
    ensures Sorting.Sorted([a, b, c], RegionBefore)
    ensures Merged([a, b, c]) == [a, Absorb(b, c)] && Joins(a, Absorb(b, c))
  {
    assert [a, b, c][..2] == [a, b] && [a, b][..1] == [a] && [a][..0] == [];
    assert Merged([a]) == [a];
    assert Merged([a, b]) == [a, b];
    assert Merged([a, b, c]) == [a, b][..1] + [Absorb(b, c)];
  }
}
