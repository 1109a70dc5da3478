/** The builder as written: mutable nodes, a stack of references into the growing tree, and a
    buffer of pending atomic blocks. It computes the frozen form of the outline. */
module TreeBuilder {
  import opened Seqs
  import opened DocumentModel
  import opened Outline
  import Sorting

  class Node {
    const kind: NodeKind
    const path: seq<string>
    const level: nat
    const pageFrom: nat
    var blockIds: seq<string>
    var pageTo: nat
    var texts: seq<string>
    var children: seq<Node>
    ghost const index: nat  // the position of this node among all nodes

    constructor (kind: NodeKind, path: seq<string>, level: nat, blocks: seq<Placed>, pageFrom: nat, pageTo: nat,
                 ghost index: nat)
      ensures this.kind == kind && this.path == path && this.level == level && this.pageFrom == pageFrom
      ensures this.pageTo == pageTo && blockIds == Ids(blocks) && texts == Texts(blocks) && children == []
      ensures this.index == index
    {
      this.index := index;
      this.kind, this.path, this.level, this.pageFrom, this.pageTo := kind, path, level, pageFrom, pageTo;
      blockIds, texts, children := Ids(blocks), Texts(blocks), [];
    }

    ghost predicate Shows(e: Entry)
      reads this
    {
      && kind == e.kind && path == e.path && level == e.level && pageFrom == e.pageFrom
      && pageTo == e.pageTo && blockIds == Ids(e.blocks) && texts == Texts(e.blocks)
    }
  }

  ghost function Pick(nodes: seq<Node>, ks: seq<nat>): (r: seq<Node>)
    requires forall i :: 0 <= i < |ks| ==> ks[i] < |nodes|
    ensures |r| == |ks| && forall i :: 0 <= i < |ks| ==> r[i] == nodes[ks[i]]
  {
    seq(|ks|, i requires 0 <= i < |ks| => nodes[ks[i]])
  }

  ghost predicate Rooted(parents: seq<int>) {
    forall k :: 0 <= k < |parents| ==> -1 <= parents[k] < k
  }

  lemma {:induction false} ChildrenGrow(parents: seq<int>, p: int, k: int, j: nat)
    requires j <= |parents| && -1 <= p < |parents| && Rooted(parents)
    ensures Rooted(parents + [p])
    ensures ChildrenFrom(parents + [p], k, j) == ChildrenFrom(parents, k, j) + (if p == k then [|parents|] else [])
    decreases |parents| - j
  {
    var grown := parents + [p];
    var here := if grown[j] == k then [j as nat] else [];
    if j < |parents| {
      ChildrenGrow(parents, p, k, j + 1);
      assert ChildrenFrom(grown, k, j) == here + ChildrenFrom(grown, k, j + 1);
      assert ChildrenFrom(parents, k, j) == here + ChildrenFrom(parents, k, j + 1);
    }
  }

  lemma {:induction false} NoChildren(parents: seq<int>, k: int, j: nat)
    requires j <= |parents| <= k
    requires forall i :: 0 <= i < |parents| ==> -1 <= parents[i] < i
    ensures ChildrenFrom(parents, k, j) == []
    decreases |parents| - j
  {
    if j < |parents| {
      NoChildren(parents, k, j + 1);
    }
  }

  /** A new entry is one more child of its parent and has no children itself. */
  lemma {:induction false} PickGrow(nodes: seq<Node>, node: Node, o: Outline, e: Entry, p: int, origin: nat, k: int)
    requires Wf(o) && |nodes| == |o.entries| && -1 <= p < |nodes| && -1 <= k <= |nodes|
    ensures Pick(nodes + [node], ChildrenOf(Grow(o, e, p, origin), k)) ==
            (if k == |nodes| then [] else Pick(nodes, ChildrenOf(o, k)) + (if p == k then [node] else []))
  {
    ChildrenGrow(o.parents, p, k, 0);
    if k == |nodes| {
      NoChildren(o.parents, k, 0);
    }
  }

  ghost predicate NodeOk(nodes: seq<Node>, entries: seq<Entry>, parents: seq<int>, k: nat)
    requires Rooted(parents) && |nodes| == |entries| == |parents| && k < |nodes|
    reads nodes[k]
  {
    nodes[k].index == k && nodes[k].Shows(entries[k]) && nodes[k].children == Pick(nodes, ChildrenFrom(parents, k, 0))
  }

  /** A new node leaves every node in place but its parent, and is itself in place. */
  lemma {:induction false} NodeJoins(before: seq<Node>, node: Node, o: Outline, e: Entry, p: int, origin: nat, k: nat)
    requires Wf(o) && |before| == |o.entries| && -1 <= p < |before| && k <= |before| && k != p
    requires Rooted(o.parents) && Rooted(o.parents + [p])
    requires k < |before| ==> NodeOk(before, o.entries, o.parents, k)
    requires k == |before| ==> node.index == k && node.Shows(e) && node.children == []
    ensures NodeOk(before + [node], Grow(o, e, p, origin).entries, Grow(o, e, p, origin).parents, k)
  {
    PickGrow(before, node, o, e, p, origin, k);
    hide ChildrenFrom, Node.Shows, Pick;
    var nodes := before + [node];
    assert k < |before| ==> nodes[k] == before[k];
  }

  /** The local state of the traversal; the ghost fields relate it to the outline. */
  class Builder {
    const names: Naming
    var root: seq<Node>
    var stack: seq<Node>
    var sawHeading: bool
    var virtualByPage: map<nat, Node>
    var atomicBuf: seq<Placed>
    var headerFooterIds: seq<string>
    var referenceBlocks: seq<Placed>
    var warnings: seq<(nat, nat)>
    ghost var nodes: seq<Node>
    ghost var outline: Outline

    ghost predicate NodesValid()
      reads this, nodes
    {
      && Wf(outline) && |nodes| == |outline.entries|
      && (forall k :: 0 <= k < |nodes| ==> NodeOk(nodes, outline.entries, outline.parents, k))
      && root == Pick(nodes, ChildrenFrom(outline.parents, -1, 0))
    }

    ghost predicate Valid()
      reads this, nodes
    {
      && NodesValid()
      && stack == Pick(nodes, outline.stack) && sawHeading == outline.sawHeading
      && virtualByPage.Keys == outline.virtualPages.Keys
      && (forall page :: page in virtualByPage ==> virtualByPage[page] == nodes[outline.virtualPages[page]])
      && atomicBuf == outline.run && headerFooterIds == Ids(outline.headerFooter)
      && referenceBlocks == outline.references && warnings == outline.warnings
    }

    constructor (names: Naming)
      ensures Valid() && outline == EMPTY && this.names == names && nodes == []
    {
      this.names := names;
      root, stack, sawHeading, virtualByPage, atomicBuf := [], [], false, map[], [];
      headerFooterIds, referenceBlocks, warnings := [], [], [];
      nodes, outline := [], EMPTY;
    }

    method AttachAtRoot(node: Node, ghost e: Entry, ghost origin: nat)
      requires NodesValid() && node !in nodes && node.index == |nodes| && node.Shows(e) && node.children == []
      modifies this`root, this`nodes, this`outline
      ensures NodesValid() && nodes == old(nodes) + [node]
      ensures outline == Grow(old(outline), e, -1, origin)
    {
      ghost var o, before := outline, nodes;
      root := root + [node];
      nodes := nodes + [node];
      outline := Grow(o, e, -1, origin);
      forall k | 0 <= k < |nodes|
        ensures NodeOk(nodes, outline.entries, outline.parents, k)
      {
        NodeJoins(before, node, o, e, -1, origin, k);
      }
      PickGrow(before, node, o, e, -1, origin, -1);
    }

    method AttachUnder(parent: Node, node: Node, ghost p: nat, ghost e: Entry, ghost origin: nat)
      requires NodesValid() && node !in nodes && node.index == |nodes| && node.Shows(e) && node.children == []
      requires p < |nodes| && parent == nodes[p]
      modifies this`nodes, this`outline, parent`children
      ensures NodesValid() && nodes == old(nodes) + [node]
      ensures outline == Grow(old(outline), e, p, origin)
    {
      ghost var o, before := outline, nodes;
      assert NodeOk(nodes, o.entries, o.parents, p);
      parent.children := parent.children + [node];
      nodes := nodes + [node];
      outline := Grow(o, e, p, origin);
      forall k | 0 <= k < |nodes|
        ensures NodeOk(nodes, outline.entries, outline.parents, k)
      {
        if k == p {
          PickGrow(before, node, o, e, p, origin, k);
          assert nodes[k] == parent;
        } else {
          if k < |before| {
            assert old(NodeOk(before, o.entries, o.parents, k));
          }
          NodeJoins(before, node, o, e, p, origin, k);
        }
      }
      PickGrow(before, node, o, e, p, origin, -1);
    }

    /** `_attach`: under the top of the stack, or at the root. */
    method Attach(node: Node, ghost e: Entry, ghost origin: nat)
      requires Valid() && node !in nodes && node.index == |nodes| && node.Shows(e) && node.children == []
      modifies this`root, this`nodes, this`outline, nodes
      ensures Valid() && nodes == old(nodes) + [node]
      ensures outline == Grow(old(outline), e, Top(old(outline)), origin)
    {
      var parent: Node? := if |stack| > 0 then stack[|stack| - 1] else null;
      if parent != null {
        AttachUnder(parent, node, Top(outline), e, origin);
      } else {
        AttachAtRoot(node, e, origin);
      }
    }

    /** Append a block of running text to the node at position `k`. */
    method AppendText(node: Node, ghost k: nat, p: Placed)
      requires NodesValid() && k < |nodes| && node == nodes[k]
      modifies this`outline, nodes
      ensures NodesValid() && outline == Extend(old(outline), k, p)
    {
      ghost var o := outline;
      IdsAppend(o.entries[k].blocks, [p]);
      assert Ids([p]) == [p.block.id] && Texts([p]) == [TextOf(p.block)];
      assert old(NodeOk(nodes, o.entries, o.parents, k));
      node.blockIds := node.blockIds + [p.block.id];
      node.texts := node.texts + [TextOf(p.block)];
      node.pageTo := Max(node.pageTo, p.page);
      outline := Extend(o, k, p);
      forall j | 0 <= j < |nodes|
        ensures NodeOk(nodes, outline.entries, outline.parents, j)
      {
        assert old(NodeOk(nodes, o.entries, o.parents, j));
      }
    }

    /** `flush_atomic`. */
    method FlushAtomic(ghost n: nat)
      requires Valid() && |outline.run| <= n
      modifies this`root, this`nodes, this`outline, this`atomicBuf, nodes
      ensures Valid() && outline == FlushRun(old(outline), n)
      ensures old(nodes) <= nodes && forall k :: |old(nodes)| <= k < |nodes| ==> fresh(nodes[k])
    {
      if atomicBuf != [] {
        var path := PathOfTop();
        CloseRun(path, n);
      }
    }

    method CloseRun(path: seq<string>, ghost n: nat)
      requires Valid() && 0 < |outline.run| <= n && path == TopPath(outline)
      modifies this`root, this`nodes, this`outline, this`atomicBuf, nodes
      ensures Valid()
      ensures outline == Grow(old(outline), RunEntry(old(outline)), Top(old(outline)), n - |old(outline).run|)
                         .(run := [])
      ensures old(nodes) <= nodes && forall k :: |old(nodes)| <= k < |nodes| ==> fresh(nodes[k])
    {
      ghost var e := RunEntry(outline);
      var node := new Node(AtomicGroup, path, 0, atomicBuf, MinPage(atomicBuf), MaxPage(0, atomicBuf), |nodes|);
      assert node.Shows(e);
      Attach(node, e, n - |outline.run|);
      ClearRun();
    }

    method ClearRun()
      requires Valid()
      modifies this`atomicBuf, this`outline
      ensures Valid() && outline == old(outline).(run := [])
    {
      atomicBuf := [];
      outline := outline.(run := []);
      assert NodesValid();
    }

    method PathOfTop() returns (path: seq<string>)
      requires Valid()
      ensures outline == old(outline) && path == TopPath(outline)
    {
      path := [];
      if |stack| > 0 {
        assert NodeOk(nodes, outline.entries, outline.parents, Top(outline));
        path := stack[|stack| - 1].path;
      }
    }

    method TopLevel() returns (level: nat)
      requires Valid() && |stack| > 0
      ensures outline == old(outline) && level == outline.entries[Top(outline)].level
    {
      assert NodeOk(nodes, outline.entries, outline.parents, Top(outline));
      level := stack[|stack| - 1].level;
    }

    ghost predicate TopShown()
      requires Wf(outline)
      reads this, stack
    {
      |stack| > 0 ==> |outline.stack| > 0 && stack[|stack| - 1].level == outline.entries[Top(outline)].level
    }

    method Pop()
      requires Valid() && |stack| > 0
      modifies this`stack, this`outline
      ensures Valid() && outline == old(outline).(stack := old(outline).stack[..|old(outline).stack| - 1])
      ensures |stack| == |old(stack)| - 1
    {
      stack := stack[..|stack| - 1];
      outline := outline.(stack := outline.stack[..|stack|]);
      assert NodesValid();
    }

    method PopStack(level: nat)
      requires Valid()
      modifies this`stack, this`outline
      ensures Valid() && outline == old(outline).(stack := PopTo(old(outline).entries, old(outline).stack, level))
    {
      assert |stack| > 0 ==> NodeOk(nodes, outline.entries, outline.parents, Top(outline));
      while |stack| > 0 && stack[|stack| - 1].level >= level
        invariant Valid() && TopShown() && |stack| == |outline.stack|
        invariant outline == old(outline).(stack := outline.stack)
        invariant PopTo(old(outline).entries, outline.stack, level)
                  == PopTo(old(outline).entries, old(outline).stack, level)
        decreases |stack|
      {
        Pop();
        assert |stack| > 0 ==> NodeOk(nodes, outline.entries, outline.parents, Top(outline));
      }
    }

    method NoteSkip(level: nat)
      requires Valid()
      modifies this`warnings, this`outline
      ensures Valid() && outline == old(outline).(warnings := old(outline).warnings + SkipUnder(old(outline), level))
    {
      if |stack| > 0 {
        var top := TopLevel();
        if level > top + 1 {
          warnings := warnings + [(top, level)];
          outline := outline.(warnings := outline.warnings + [(top, level)]);
          assert NodesValid();
        }
      }
    }

    method MarkHeading()
      requires Valid()
      modifies this`sawHeading, this`outline
      ensures Valid() && outline == old(outline).(sawHeading := true)
    {
      sawHeading := true;
      outline := outline.(sawHeading := true);
      assert NodesValid();
    }

    method OpenSection(p: Placed, title: string, level: nat, ghost n: nat)
      requires Valid()
      modifies this`root, this`nodes, this`outline, this`stack, nodes
      ensures Valid()
      ensures outline == Grow(old(outline), Entry(Section, TopPath(old(outline)) + [title], level, [], p.page, p.page),
                              Top(old(outline)), n)
                           .(stack := old(outline).stack + [|old(outline).entries|])
      ensures old(nodes) <= nodes && forall k :: |old(nodes)| <= k < |nodes| ==> fresh(nodes[k])
    {
      var path := PathOfTop();
      ghost var e := Entry(Section, path + [title], level, [], p.page, p.page);
      var node := new Node(Section, path + [title], level, [], p.page, p.page, |nodes|);
      assert node.Shows(e);
      Attach(node, e, n);
      Push(node, |outline.entries| - 1);
    }

    method Push(node: Node, ghost k: nat)
      requires Valid() && k < |nodes| && node == nodes[k]
      modifies this`stack, this`outline
      ensures Valid() && outline == old(outline).(stack := old(outline).stack + [k])
    {
      stack := stack + [node];
      outline := outline.(stack := outline.stack + [k]);
      assert NodesValid();
    }

    method ReadHeading(p: Placed, ghost n: nat)
      requires Valid() && IsHeading(p)
      modifies this, nodes
      ensures Valid() && outline == PushHeading(old(outline), n, p, names.title(TextOf(p.block)))
      ensures old(nodes) <= nodes && forall k :: |old(nodes)| <= k < |nodes| ==> fresh(nodes[k])
    {
      var level := LevelOf(p);
      PopStack(level);
      NoteSkip(level);
      MarkHeading();
      OpenSection(p, names.title(TextOf(p.block)), level, n);
    }

    method SetAside(p: Placed)
      requires Valid()
      modifies this`headerFooterIds, this`outline
      ensures Valid() && outline == old(outline).(headerFooter := old(outline).headerFooter + [p])
    {
      IdsAppend(outline.headerFooter, [p]);
      headerFooterIds := headerFooterIds + [p.block.id];
      outline := outline.(headerFooter := outline.headerFooter + [p]);
      assert Ids([p]) == [p.block.id] && NodesValid();
    }

    method KeepReference(p: Placed)
      requires Valid()
      modifies this`referenceBlocks, this`outline
      ensures Valid() && outline == old(outline).(references := old(outline).references + [p])
    {
      referenceBlocks := referenceBlocks + [p];
      outline := outline.(references := outline.references + [p]);
      assert NodesValid();
    }

    method BufferAtomic(p: Placed)
      requires Valid()
      modifies this`atomicBuf, this`outline
      ensures Valid() && outline == old(outline).(run := old(outline).run + [p])
    {
      atomicBuf := atomicBuf + [p];
      outline := outline.(run := outline.run + [p]);
      assert NodesValid();
    }

    method OpenVirtual(p: Placed, ghost n: nat)
      requires Valid() && p.page !in virtualByPage
      modifies this`root, this`nodes, this`outline, this`virtualByPage
      ensures Valid() && p.page in virtualByPage
      ensures outline == Grow(old(outline), Entry(VirtualSection, [names.pageLabel(p.page)], 0, [], p.page, p.page), -1,
                              n)
                           .(virtualPages := old(outline).virtualPages[p.page := |old(outline).entries|])
      ensures old(nodes) <= nodes && forall k :: |old(nodes)| <= k < |nodes| ==> fresh(nodes[k])
    {
      var path := [names.pageLabel(p.page)];
      ghost var e := Entry(VirtualSection, path, 0, [], p.page, p.page);
      var node := new Node(VirtualSection, path, 0, [], p.page, p.page, |nodes|);
      assert node.Shows(e);
      AttachAtRoot(node, e, n);
      virtualByPage := virtualByPage[p.page := node];
      outline := outline.(virtualPages := outline.virtualPages[p.page := |outline.entries| - 1]);
      assert NodesValid();
    }

    method ReadBody(p: Placed, ghost n: nat)
      requires Valid()
      modifies this, nodes
      ensures Valid() && outline == AddBody(old(outline), n, p, names.pageLabel)
      ensures old(nodes) <= nodes && forall k :: |old(nodes)| <= k < |nodes| ==> fresh(nodes[k])
    {
      if !sawHeading {
        if p.page !in virtualByPage {
          OpenVirtual(p, n);
        }
        AppendText(virtualByPage[p.page], outline.virtualPages[p.page], p);
      } else if |stack| > 0 {
        AppendText(stack[|stack| - 1], Top(outline), p);
      }
    }

    method ReadBlock(p: Placed, ghost n: nat)
      requires Valid() && |outline.run| <= n
      modifies this, nodes
      ensures Valid() && outline == Step(old(outline), n, p, names)
      ensures old(nodes) <= nodes && forall k :: |old(nodes)| <= k < |nodes| ==> fresh(nodes[k])
    {
      if IsAtomic(p.block.kind) {
        BufferAtomic(p);
      } else {
        FlushAtomic(n);
        ReadSettled(p, n);
      }
    }

    method ReadSettled(p: Placed, ghost n: nat)
      requires Valid() && outline.run == [] && !IsAtomic(p.block.kind)
      modifies this, nodes
      ensures Valid() && outline == Step(old(outline), n, p, names)
      ensures old(nodes) <= nodes && forall k :: |old(nodes)| <= k < |nodes| ==> fresh(nodes[k])
    {
      if p.block.kind == HeaderFooter {
        SetAside(p);
      } else if p.block.kind == Reference {
        KeepReference(p);
      } else if HeadingLevel(p.block).Some? {
        ReadHeading(p, n);
      } else {
        ReadBody(p, n);
      }
    }

    method ReadAll(ordered: seq<Placed>)
      requires Valid() && outline == EMPTY && nodes == []
      modifies this
      ensures Valid() && outline == Run(ordered, |ordered|, names)
      ensures forall k :: 0 <= k < |nodes| ==> fresh(nodes[k])
    {
      for n := 0 to |ordered|
        invariant Valid() && outline == Run(ordered, n, names)
        invariant forall k :: 0 <= k < |nodes| ==> fresh(nodes[k])
      {
        ReadBlock(ordered[n], n);
      }
    }

    method AddReferences(ghost n: nat)
      requires Valid() && |outline.run| <= n
      modifies this, nodes
      ensures NodesValid() && outline == Finish(old(outline), n)
      ensures headerFooterIds == Ids(outline.headerFooter) && warnings == outline.warnings
    {
      FlushAtomic(n);
      if referenceBlocks != [] {
        ghost var e := Entry(References, ["references"], 0, referenceBlocks, MinPage(referenceBlocks),
                             MaxPage(0, referenceBlocks));
        var node := new Node(References, ["references"], 0, referenceBlocks, MinPage(referenceBlocks),
                             MaxPage(0, referenceBlocks), |nodes|);
        assert node.Shows(e);
        AttachAtRoot(node, e, n);
      }
    }

    /** `_freeze`. */
    method Freeze(node: Node, ghost k: nat) returns (t: Tree)
      requires NodesValid() && k < |nodes| && node == nodes[k]
      ensures outline == old(outline) && t == Frozen(outline, k)
      decreases |nodes| - k
    {
      assert NodeOk(nodes, outline.entries, outline.parents, k);
      ghost var ks := ChildrenOf(outline, k);
      var children := [];
      var i := 0;
      while i < |node.children|
        invariant 0 <= i <= |node.children| == |ks| && |children| == i
        invariant forall j :: 0 <= j < i ==> children[j] == Frozen(outline, ks[j])
      {
        var child := Freeze(node.children[i], ks[i]);
        children := children + [child];
        i := i + 1;
      }
      assert children == FrozenAll(outline, ks, k);
      t := Tree(node.kind, node.path, node.level, node.blockIds, node.pageFrom, node.pageTo, Join("\n", node.texts),
                children);
    }

    method FreezeRoots() returns (trees: seq<Tree>)
      requires NodesValid()
      ensures outline == old(outline) && trees == FrozenForest(outline)
    {
      ghost var ks := ChildrenOf(outline, -1);
      trees := [];
      for i := 0 to |root|
        invariant |root| == |ks| && |trees| == i
        invariant forall j :: 0 <= j < i ==> trees[j] == Frozen(outline, ks[j])
      {
        var t := Freeze(root[i], ks[i]);
        trees := trees + [t];
      }
      assert trees == FrozenAll(outline, ks, -1);
    }
  }

  lemma {:induction false} PageStarts(before: seq<Placed>, pageNo: nat, blocks: seq<Block>)
    ensures before + OnPage(pageNo, blocks[..0]) == before
  {
  }

  lemma {:induction false} PageGrows(before: seq<Placed>, pageNo: nat, blocks: seq<Block>, j: nat)
    requires j < |blocks|
    ensures before + OnPage(pageNo, blocks[..j + 1])
            == before + OnPage(pageNo, blocks[..j]) + [Placed(pageNo, blocks[j])]
  {
  }

  /** The blocks of the document, pages by number and blocks by reading order. */
  method CollectBlocks(pages: seq<Page>) returns (ordered: seq<Placed>)
    ensures ordered == ReadingSequence(pages)
  {
    hide Sorting.Sort, OnPage;
    var sorted := Sorting.Sort(pages, PageBefore);
    ordered := [];
    for i := 0 to |sorted|
      invariant ordered == ReadPages(sorted[..i])
    {
      var blocks := Sorting.Sort(sorted[i].blocks, BlockBefore);
      ghost var before := ordered;
      PageStarts(before, sorted[i].pageNo, blocks);
      for j := 0 to |blocks|
        invariant ordered == before + OnPage(sorted[i].pageNo, blocks[..j])
      {
        PageGrows(before, sorted[i].pageNo, blocks, j);
        ordered := ordered + [Placed(sorted[i].pageNo, blocks[j])];
      }
      assert blocks[..|blocks|] == blocks;
      assert sorted[..i + 1][..i] == sorted[..i];
    }
    assert sorted[..|sorted|] == sorted;
  }

  /** `build_document_tree`: the mutable tree freezes to the outline of the reading sequence. */
  method BuildDocumentTree(pages: seq<Page>, names: Naming) returns (tree: DocumentTree)
    ensures tree == FrozenDocument(Complete(ReadingSequence(pages), names))
  {
    var ordered := CollectBlocks(pages);
    var b := new Builder(names);
    b.ReadAll(ordered);
    b.AddReferences(|ordered|);
    var nodes := b.FreezeRoots();
    tree := DocumentTree(nodes, b.headerFooterIds, b.warnings);
  }
}
