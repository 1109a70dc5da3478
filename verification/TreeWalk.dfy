/** Collecting the units of a frozen tree visits every entry of its outline once. */
module TreeWalk {
  import opened Seqs
  import opened DocumentModel
  import opened Outline
  import opened OutlineFacts
  import opened TreeFacts

  function Own(node: Tree): seq<Tree> {
    if node.blockIds != [] then [node] else []
  }

  /** `_walk_units`: preorder, atomic groups and references without descending. */
  function WalkUnits(nodes: seq<Tree>): seq<Tree> {
    if nodes == [] then []
    else
      var node := nodes[0];
      (if node.kind == AtomicGroup || node.kind == References then Own(node)
       else Own(node) + WalkUnits(node.children))
      + WalkUnits(nodes[1..])
  }

  lemma {:induction false} UnitsNonempty(nodes: seq<Tree>)
    ensures forall i :: 0 <= i < |WalkUnits(nodes)| ==> WalkUnits(nodes)[i].blockIds != []
  {
    if nodes != [] {
      if nodes[0].kind != AtomicGroup && nodes[0].kind != References {
        UnitsNonempty(nodes[0].children);
      }
      UnitsNonempty(nodes[1..]);
    }
  }

  /** The block ids of the units, one after the other. */
  function UnitIds(units: seq<Tree>): seq<string> {
    if units == [] then [] else units[0].blockIds + UnitIds(units[1..])
  }

  lemma {:induction false} UnitIdsConcat(a: seq<Tree>, b: seq<Tree>)
    ensures UnitIds(a + b) == UnitIds(a) + UnitIds(b)
  {
    if a == [] {
      assert a + b == b;
    } else {
      assert (a + b)[1..] == a[1..] + b;
      UnitIdsConcat(a[1..], b);
    }
  }

  function Walked(nodes: seq<Tree>): multiset<string> {
    multiset(UnitIds(WalkUnits(nodes)))
  }

  lemma {:induction false} OwnIds(node: Tree)
    ensures UnitIds(Own(node)) == node.blockIds
  {
  }

  lemma {:induction false} WalkedCons(nodes: seq<Tree>)
    requires nodes != []
    ensures Walked(nodes) == Walked([nodes[0]]) + Walked(nodes[1..])
  {
    var node, rest := nodes[0], nodes[1..];
    assert [node][1..] == [];
    assert WalkUnits([node]) == (if node.kind == AtomicGroup || node.kind == References then Own(node)
                                 else Own(node) + WalkUnits(node.children));
    UnitIdsConcat(WalkUnits([node]), WalkUnits(rest));
  }

  lemma {:induction false} WalkedOne(node: Tree)
    requires node.kind == AtomicGroup || node.kind == References ==> node.children == []
    ensures Walked([node]) == multiset(node.blockIds) + Walked(node.children)
  {
    assert [node][1..] == [];
    OwnIds(node);
    UnitIdsConcat(Own(node), WalkUnits(node.children));
    assert WalkUnits([node]) == Own(node) + WalkUnits(node.children);
  }

  // Summing subtrees.

  function Subtree(o: Outline, k: nat): multiset<string>
    requires Wf(o) && k < |o.entries|
  {
    Walked([Frozen(o, k)])
  }

  /** The subtrees at and after `j` whose parent lies before `m`. */
  function Hanging(o: Outline, m: int, j: nat): multiset<string>
    requires Wf(o) && j <= |o.entries|
    decreases |o.entries| - j
  {
    if j == |o.entries| then multiset{}
    else (if o.parents[j] < m then Subtree(o, j) else multiset{}) + Hanging(o, m, j + 1)
  }

  /** The subtrees at and after `j` whose parent is `k`. */
  function Kids(o: Outline, k: int, j: nat): multiset<string>
    requires Wf(o) && j <= |o.entries|
    decreases |o.entries| - j
  {
    if j == |o.entries| then multiset{}
    else (if o.parents[j] == k then Subtree(o, j) else multiset{}) + Kids(o, k, j + 1)
  }

  lemma {:induction false} Regroup3(s: multiset<string>, h: multiset<string>, k: multiset<string>)
    ensures s + (h + k) == (s + h) + k == h + (s + k)
    ensures multiset{} + (h + k) == (multiset{} + h) + (multiset{} + k)
    ensures s + (h + k) == (s + h) + (multiset{} + k) == (multiset{} + h) + (s + k)
  {
  }

  lemma {:induction false} HangingStep(o: Outline, m: nat, j: nat)
    requires Wf(o) && j <= |o.entries|
    ensures Hanging(o, m + 1, j) == Hanging(o, m, j) + Kids(o, m, j)
    decreases |o.entries| - j
  {
    hide Subtree, Frozen, FrozenAll, ChildrenOf;
    if j < |o.entries| {
      HangingStep(o, m, j + 1);
      var s := Subtree(o, j);
      Regroup3(s, Hanging(o, m, j + 1), Kids(o, m, j + 1));
    }
  }

  lemma {:induction false} HangingRoots(o: Outline, j: nat)
    requires Wf(o) && j <= |o.entries|
    ensures Hanging(o, 0, j) == Kids(o, -1, j)
    decreases |o.entries| - j
  {
    hide Subtree, Frozen, FrozenAll, ChildrenOf;
    if j < |o.entries| {
      HangingRoots(o, j + 1);
    }
  }

  lemma {:induction false} NoKidsBefore(o: Outline, k: nat, j: nat)
    requires Wf(o) && j <= k + 1 && k < |o.entries|
    ensures Kids(o, k, j) == Kids(o, k, k + 1)
    decreases k + 1 - j
  {
    hide Subtree, Frozen, FrozenAll, ChildrenOf;
    if j <= k {
      NoKidsBefore(o, k, j + 1);
    }
  }

  lemma {:induction false} KidsWalked(o: Outline, k: int, j: nat)
    requires Wf(o) && -1 <= k < |o.entries| && j <= |o.entries|
    ensures Walked(FrozenAll(o, ChildrenFrom(o.parents, k, j), k)) == Kids(o, k, j)
    decreases |o.entries| - j
  {
    hide Walked, FrozenAll, Frozen, ChildrenFrom;
    if j < |o.entries| {
      KidsWalked(o, k, j + 1);
      KidsStep(o, k, j);
      if o.parents[j] == k {
        WalkedCons(FrozenAll(o, ChildrenFrom(o.parents, k, j), k));
      }
    } else {
      NoKidsLeft(o, k);
    }
  }

  lemma {:induction false} NoKidsLeft(o: Outline, k: int)
    requires Wf(o) && -1 <= k < |o.entries|
    ensures Walked(FrozenAll(o, ChildrenFrom(o.parents, k, |o.entries|), k)) == multiset{}
  {
  }

  lemma {:induction false} KidsStep(o: Outline, k: int, j: nat)
    requires Wf(o) && -1 <= k < |o.entries| && j < |o.entries|
    ensures var all := FrozenAll(o, ChildrenFrom(o.parents, k, j), k);
            var rest := FrozenAll(o, ChildrenFrom(o.parents, k, j + 1), k);
            if o.parents[j] == k then all != [] && all[0] == Frozen(o, j) && all[1..] == rest else all == rest
  {
    hide Frozen;
    var ks, rest := ChildrenFrom(o.parents, k, j), ChildrenFrom(o.parents, k, j + 1);
    if o.parents[j] == k {
      assert ks[1..] == rest;
    } else {
      assert ks == rest;
    }
  }

  lemma {:induction false} NobodysChild(parents: seq<int>, k: int, j: nat)
    requires j <= |parents| && forall i :: 0 <= i < |parents| ==> -1 <= parents[i] < i && parents[i] != k
    ensures ChildrenFrom(parents, k, j) == []
    decreases |parents| - j
  {
    if j < |parents| {
      NobodysChild(parents, k, j + 1);
    }
  }

  lemma {:induction false} LeavesHaveNoChildren(o: Outline, k: nat)
    requires Wf(o) && ParentsAreSections(o) && k < |o.entries| && o.entries[k].kind != Section
    ensures ChildrenOf(o, k) == []
  {
    NobodysChild(o.parents, k, 0);
  }

  lemma {:induction false} SubtreeSum(o: Outline, k: nat)
    requires Wf(o) && ParentsAreSections(o) && k < |o.entries|
    ensures Subtree(o, k) == multiset(Ids(o.entries[k].blocks)) + Kids(o, k, k + 1)
  {
    if o.entries[k].kind != Section {
      LeavesHaveNoChildren(o, k);
    }
    WalkedOne(Frozen(o, k));
    KidsWalked(o, k, 0);
    NoKidsBefore(o, k, 0);
  }

  lemma {:induction false} HangingSum(o: Outline, m: nat)
    requires Wf(o) && ParentsAreSections(o) && m <= |o.entries|
    ensures EntryIds(o.entries[..m]) + Hanging(o, m, m) == EntryIds(o.entries)
    decreases |o.entries| - m
  {
    if m == |o.entries| {
      assert o.entries[..m] == o.entries;
    } else {
      HangingSum(o, m + 1);
      HangingNext(o, m);
    }
  }

  lemma {:induction false} HangingFirst(o: Outline, m: nat)
    requires Wf(o) && m < |o.entries|
    ensures Hanging(o, m, m) == Subtree(o, m) + Hanging(o, m, m + 1)
  {
    hide Subtree;
  }

  lemma {:induction false} HangingNext(o: Outline, m: nat)
    requires Wf(o) && ParentsAreSections(o) && m < |o.entries|
    ensures EntryIds(o.entries[..m]) + Hanging(o, m, m) == EntryIds(o.entries[..m + 1]) + Hanging(o, m + 1, m + 1)
  {
    hide *;
    var ids := multiset(Ids(o.entries[m].blocks));
    HangingFirst(o, m);
    SubtreeSum(o, m);
    HangingStep(o, m, m + 1);
    EntryIdsNext(o.entries, m);
    Carry(EntryIds(o.entries[..m]), Hanging(o, m, m), EntryIds(o.entries[..m + 1]), Hanging(o, m + 1, m + 1),
          Subtree(o, m), ids, Kids(o, m, m + 1), Hanging(o, m, m + 1));
  }

  lemma {:induction false} EntryIdsNext(es: seq<Entry>, m: nat)
    requires m < |es|
    ensures EntryIds(es[..m + 1]) == EntryIds(es[..m]) + multiset(Ids(es[m].blocks))
  {
    hide EntryIds, Ids;
    assert es[..m + 1] == es[..m] + [es[m]];
    EntryIdsSnoc(es[..m], es[m]);
  }

  lemma {:induction false} Carry(a: multiset<string>, h: multiset<string>, a': multiset<string>, h': multiset<string>,
                                 s: multiset<string>, b: multiset<string>, c: multiset<string>, d: multiset<string>)
    requires a' == a + b && h == s + d && s == b + c && h' == d + c
    ensures a + h == a' + h'
  {
    Regroup(a, b, c, d);
  }

  lemma {:induction false} Regroup(a: multiset<string>, b: multiset<string>, c: multiset<string>, d: multiset<string>)
    ensures a + ((b + c) + d) == (a + b) + (d + c)
  {
  }

  /** The units of the finished tree hold every indexed block as often as the document does. */
  lemma {:induction false} UnitsHoldDocument(doc: seq<Placed>, names: Naming)
    ensures var tree := FrozenDocument(Complete(doc, names));
            multiset(UnitIds(WalkUnits(tree.nodes))) == IndexedIds(doc, |doc|)
  {
    var o := Complete(doc, names);
    CompleteFaithful(doc, names);
    FaithfulParents(o, doc, names);
    CompleteHolds(doc, names);
    HangingSum(o, 0);
    HangingRoots(o, 0);
    KidsWalked(o, -1, 0);
    assert o.entries[..0] == [];
  }
}
