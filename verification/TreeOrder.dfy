/** The walk follows the document: units stand in the order of the headings and first blocks that made them. */
module TreeOrder {
  import opened Seqs
  import opened DocumentModel
  import opened Outline
  import opened OutlineFacts
  import opened TreeFacts
  import opened TreeWalk

  // Entries are made in document order, below the open branch.

  /** Between an entry and its parent stand only entries of that parent or below. */
  ghost predicate Nested(parents: seq<int>) {
    forall i, j :: 0 <= i < j < |parents| && parents[j] < i ==> parents[i] >= parents[j]
  }

  ghost predicate Increasing(s: seq<nat>) {
    forall i, j :: 0 <= i < j < |s| ==> s[i] < s[j]
  }

  /** The open branch: nothing after a section on the stack hangs above it. */
  ghost predicate Open(o: Outline) {
    forall q, i :: 0 <= q < |o.stack| && 0 <= o.stack[q] < i < |o.parents| ==> o.parents[i] >= o.stack[q]
  }

  ghost predicate Made(o: Outline, n: nat)
    requires Wf(o) && |o.run| <= n
  {
    && Nested(o.parents) && Increasing(o.stack) && Open(o) && Increasing(o.origins)
    && (forall k :: 0 <= k < |o.origins| ==> o.origins[k] < n - |o.run|)
    && (!o.sawHeading ==> o.stack == [])
  }

  lemma {:induction false} NestedSnoc(parents: seq<int>, p: int)
    requires Nested(parents) && forall i :: 0 <= i < |parents| && p < i ==> parents[i] >= p
    ensures Nested(parents + [p])
  {
    var all := parents + [p];
    forall i, j | 0 <= i < j < |all| && all[j] < i
      ensures all[i] >= all[j]
    {
      assert all[i] == parents[i];
      assert j < |parents| ==> all[j] == parents[j];
    }
  }

  lemma {:induction false} IncreasingSnoc(s: seq<nat>, x: nat)
    requires Increasing(s) && forall i :: 0 <= i < |s| ==> s[i] < x
    ensures Increasing(s + [x])
  {
  }

  /** A new entry under the top of the stack, or at the root while the stack is empty. */
  lemma {:induction false} GrowMade(o: Outline, e: Entry, origin: nat, n: nat)
    requires Wf(o) && |o.run| <= n && Made(o, n)
    requires forall k :: 0 <= k < |o.origins| ==> o.origins[k] < origin
    ensures var r := Grow(o, e, Top(o), origin);
            && Nested(r.parents) && Increasing(r.stack) && Open(r) && Increasing(r.origins)
  {
    var p := Top(o);
    forall i | 0 <= i < |o.parents| && p < i
      ensures o.parents[i] >= p
    {
      assert o.stack != [] ==> o.stack[|o.stack| - 1] == p;
    }
    NestedSnoc(o.parents, p);
    IncreasingSnoc(o.origins, origin);
    var r := Grow(o, e, p, origin);
    forall q, i | 0 <= q < |r.stack| && 0 <= r.stack[q] < i < |r.parents|
      ensures r.parents[i] >= r.stack[q]
    {
      if i == |o.parents| {
        assert p == o.stack[|o.stack| - 1] >= o.stack[q];
      } else {
        assert r.parents[i] == o.parents[i];
      }
    }
  }

  lemma {:induction false} FlushMade(o: Outline, n: nat)
    requires Wf(o) && |o.run| <= n && Made(o, n)
    ensures Made(FlushRun(o, n), n) && FlushRun(o, n).run == []
  {
    if o.run != [] {
      GrowMade(o, RunEntry(o), n - |o.run|, n);
    }
  }

  lemma {:induction false} PopMade(o: Outline, stack: seq<nat>)
    requires Increasing(o.stack) && Open(o) && stack <= o.stack
    ensures Increasing(stack) && Open(o.(stack := stack))
  {
    assert forall q :: 0 <= q < |stack| ==> stack[q] == o.stack[q];
  }

  lemma {:induction false} HeadingMade(o: Outline, n: nat, p: Placed, title: string)
    requires Wf(o) && IsHeading(p) && o.run == [] && Made(o, n)
    ensures Made(PushHeading(o, n, p, title), n + 1)
  {
    hide PopTo, TopPath, SkipUnder;
    var level := LevelOf(p);
    var popped := o.(stack := PopTo(o.entries, o.stack, level), sawHeading := true);
    PopMade(o, popped.stack);
    assert Made(popped, n);
    var e := Entry(Section, TopPath(popped) + [title], level, [], p.page, p.page);
    GrowMade(popped, e, n, n);
    IncreasingSnoc(popped.stack, |o.entries|);
  }

  lemma {:induction false} BodyMade(o: Outline, n: nat, p: Placed, pageLabel: nat -> string)
    requires Wf(o) && o.run == [] && Made(o, n)
    ensures Made(AddBody(o, n, p, pageLabel), n + 1)
  {
    if !o.sawHeading && p.page !in o.virtualPages {
      var e := Entry(VirtualSection, VirtualPath(p.page, pageLabel), 0, [], p.page, p.page);
      GrowMade(o, e, n, n);
    }
  }

  lemma {:induction false} StepMade(o: Outline, n: nat, p: Placed, names: Naming)
    requires Wf(o) && |o.run| <= n && Made(o, n)
    ensures Made(Step(o, n, p, names), n + 1)
  {
    if IsAtomic(p.block.kind) {
      AtomicMade(o, n, p);
    } else {
      hide FlushRun, AddBody, PushHeading, Made;
      FlushMade(o, n);
      var f := FlushRun(o, n);
      if p.block.kind == HeaderFooter || p.block.kind == Reference {
        AsideMade(f, n, p);
      } else if IsHeading(p) {
        HeadingMade(f, n, p, names.title(TextOf(p.block)));
      } else {
        BodyMade(f, n, p, names.pageLabel);
      }
    }
  }

  lemma {:induction false} AtomicMade(o: Outline, n: nat, p: Placed)
    requires Wf(o) && |o.run| <= n && Made(o, n)
    ensures Made(o.(run := o.run + [p]), n + 1)
  {
  }

  lemma {:induction false} AsideMade(f: Outline, n: nat, p: Placed)
    requires Wf(f) && f.run == [] && Made(f, n)
    ensures Made(f.(headerFooter := f.headerFooter + [p]), n + 1) && Made(f.(references := f.references + [p]), n + 1)
  {
  }

  lemma {:induction false} RunMade(doc: seq<Placed>, n: nat, names: Naming)
    requires n <= |doc|
    ensures Made(Run(doc, n, names), n)
  {
    hide *;
    if n == 0 {
      NothingMade(doc, names);
    } else {
      RunMade(doc, n - 1, names);
      StepMade(Run(doc, n - 1, names), n - 1, doc[n - 1], names);
      RunUnfold(doc, n, names);
    }
  }

  lemma {:induction false} NothingMade(doc: seq<Placed>, names: Naming)
    ensures Made(Run(doc, 0, names), 0)
  {
  }

  /** Entries stand in the order of the headings and first blocks that made them, references last, and between
      an entry and its parent stand only entries of that parent or below. */
  lemma {:induction false} CompleteOrdered(doc: seq<Placed>, names: Naming)
    ensures Nested(Complete(doc, names).parents) && Increasing(Complete(doc, names).origins)
  {
    var n := |doc|;
    RunMade(doc, n, names);
    FlushMade(Run(doc, n, names), n);
    var f := FlushRun(Run(doc, n, names), n);
    if f.references != [] {
      NestedSnoc(f.parents, -1);
      IncreasingSnoc(f.origins, n);
    }
  }

  // The walk.

  /** The block ids of entries `a` to `b`, one after the other. */
  function IdsBetween(o: Outline, a: nat, b: nat): seq<string>
    requires a <= b <= |o.entries|
    decreases b - a
  {
    if a == b then [] else Ids(o.entries[a].blocks) + IdsBetween(o, a + 1, b)
  }

  lemma {:induction false} IdsSplit(o: Outline, a: nat, m: nat, b: nat)
    requires a <= m <= b <= |o.entries|
    ensures IdsBetween(o, a, b) == IdsBetween(o, a, m) + IdsBetween(o, m, b)
    decreases m - a
  {
    if a < m {
      IdsSplit(o, a + 1, m, b);
      ConcatAssoc(Ids(o.entries[a].blocks), IdsBetween(o, a + 1, m), IdsBetween(o, m, b));
    }
  }

  /** The first entry at or after `j` that hangs above `k`, or the end. */
  function EndOf(parents: seq<int>, k: int, j: nat): (e: nat)
    requires j <= |parents|
    ensures j <= e <= |parents|
    ensures forall i :: j <= i < e ==> parents[i] >= k
    ensures e < |parents| ==> parents[e] < k
    decreases |parents| - j
  {
    if j == |parents| || parents[j] < k then j else EndOf(parents, k, j + 1)
  }

  lemma {:induction false} NoneFrom(parents: seq<int>, k: int, j: nat, m: nat)
    requires j <= m <= |parents|
    requires forall i :: 0 <= i < |parents| ==> -1 <= parents[i] < i
    requires forall i :: j <= i < m ==> parents[i] != k
    ensures ChildrenFrom(parents, k, j) == ChildrenFrom(parents, k, m)
    decreases m - j
  {
    if j < m {
      NoneFrom(parents, k, j + 1, m);
    }
  }

  lemma {:induction false} NextSibling(parents: seq<int>, k: int, j: nat, e: nat)
    requires Nested(parents) && k < j < e <= |parents| && parents[j] == k
    requires forall i :: 0 <= i < |parents| ==> -1 <= parents[i] < i
    requires forall i :: j <= i < e ==> parents[i] >= k
    requires e < |parents| ==> parents[e] < k
    ensures var m := EndOf(parents, j, j + 1);
            && j < m <= e && (m < e ==> parents[m] == k)
            && ChildrenFrom(parents, k, j + 1) == ChildrenFrom(parents, k, m)
  {
    var m := EndOf(parents, j, j + 1);
    assert e < |parents| ==> parents[e] < k;
    assert m < |parents| && parents[m] < j ==> parents[j] >= parents[m];
    NoneFrom(parents, k, j + 1, m);
  }

  lemma {:induction false} UnitsOne(node: Tree)
    requires node.kind == AtomicGroup || node.kind == References ==> node.children == []
    ensures UnitIds(WalkUnits([node])) == node.blockIds + UnitIds(WalkUnits(node.children))
  {
    assert [node][1..] == [];
    UnitIdsConcat(Own(node), WalkUnits(node.children));
    OwnIds(node);
    assert WalkUnits([node]) == Own(node) + WalkUnits(node.children);
  }

  lemma {:induction false} UnitsCons(nodes: seq<Tree>)
    requires nodes != []
    ensures UnitIds(WalkUnits(nodes)) == UnitIds(WalkUnits([nodes[0]])) + UnitIds(WalkUnits(nodes[1..]))
  {
    var node, rest := nodes[0], nodes[1..];
    assert [node][1..] == [];
    assert WalkUnits([node]) == (if node.kind == AtomicGroup || node.kind == References then Own(node)
                                 else Own(node) + WalkUnits(node.children));
    UnitIdsConcat(WalkUnits([node]), WalkUnits(rest));
  }

  lemma {:induction false} NobodyLeft(o: Outline, k: int, j: nat)
    requires Wf(o) && Nested(o.parents) && -1 <= k < j <= |o.entries| && (j < |o.entries| ==> o.parents[j] < k)
    ensures ChildrenFrom(o.parents, k, j) == []
  {
    forall i | j <= i < |o.parents|
      ensures o.parents[i] != k
    {
      assert j < i && o.parents[i] < j ==> o.parents[j] >= o.parents[i];
    }
    NoneFrom(o.parents, k, j, |o.parents|);
  }

  /** The children of `k` from `j` on cover the entries up to the end of its branch. */
  lemma {:induction false} KidsInOrder(o: Outline, k: int, j: nat, e: nat)
    requires Wf(o) && ParentsAreSections(o) && Nested(o.parents) && -1 <= k < j <= e <= |o.entries|
    requires j < e ==> o.parents[j] == k
    requires forall i :: j <= i < e ==> o.parents[i] >= k
    requires e < |o.entries| ==> o.parents[e] < k
    ensures UnitIds(WalkUnits(FrozenAll(o, ChildrenFrom(o.parents, k, j), k))) == IdsBetween(o, j, e)
    decreases |o.entries| - j, 0
  {
    hide WalkUnits, UnitIds, Frozen, FrozenAll;
    if j == e {
      NobodyLeft(o, k, j);
      NoUnits(o, k);
    } else {
      NextSibling(o.parents, k, j, e);
      var m := EndOf(o.parents, j, j + 1);
      KidsStep(o, k, j);
      UnitsCons(FrozenAll(o, ChildrenFrom(o.parents, k, j), k));
      SubtreeInOrder(o, j);
      KidsInOrder(o, k, m, e);
      IdsSplit(o, j, m, e);
    }
  }

  lemma {:induction false} NoUnits(o: Outline, k: int)
    requires Wf(o) && -1 <= k < |o.entries|
    ensures UnitIds(WalkUnits(FrozenAll(o, [], k))) == []
  {
  }

  lemma {:induction false} SubtreeInOrder(o: Outline, k: nat)
    requires Wf(o) && ParentsAreSections(o) && Nested(o.parents) && k < |o.entries|
    ensures UnitIds(WalkUnits([Frozen(o, k)])) == IdsBetween(o, k, EndOf(o.parents, k, k + 1))
    decreases |o.entries| - k - 1, 1
  {
    if o.entries[k].kind != Section {
      LeavesHaveNoChildren(o, k);
    }
    UnitsOne(Frozen(o, k));
    NoneFrom(o.parents, k, 0, k + 1);
    hide WalkUnits, UnitIds, FrozenAll, Nested, ChildrenFrom, ParentsAreSections;
    var e := EndOf(o.parents, k, k + 1);
    assert k + 1 < e ==> o.parents[k + 1] == k;
    KidsInOrder(o, k, k + 1, e);
  }

  /** Laid end to end, the units of the finished tree are its entries in document order: each section's text
      after its heading and before anything below it, each group and page where it began, references last. */
  lemma {:induction false} UnitsInOrder(doc: seq<Placed>, names: Naming)
    ensures var o := Complete(doc, names);
            UnitIds(WalkUnits(FrozenDocument(o).nodes)) == IdsBetween(o, 0, |o.entries|) && Increasing(o.origins)
  {
    var o := Complete(doc, names);
    CompleteOrdered(doc, names);
    CompleteFaithful(doc, names);
    FaithfulParents(o, doc, names);
    if o.entries != [] {
      assert o.parents[0] == -1;
    }
    KidsInOrder(o, -1, 0, |o.entries|);
  }

  // Levels.

  /** A title is the section of level 0 and has no parent; a heading has the level it states, at least 1, or
      1 when it states none. */
  lemma {:induction false} SectionLevels(doc: seq<Placed>, names: Naming, k: nat)
    requires k < |Complete(doc, names).entries| && Complete(doc, names).entries[k].kind == Section
    ensures var o := Complete(doc, names);
            && o.origins[k] < |doc|
            && var b := doc[o.origins[k]].block;
               && (b.kind == Title || b.kind == Heading)
               && (b.kind == Title ==> o.entries[k].level == 0 && o.parents[k] == -1)
               && (b.kind == Heading ==> match b.level
                     case Whole(n) => o.entries[k].level == Max(1, n)
                     case _ => o.entries[k].level == 1)
  {
    var o := Complete(doc, names);
    CompleteFaithful(doc, names);
    assert EntryOk(o, doc, |doc|, names, k);
  }
}
