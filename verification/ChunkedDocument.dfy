/** From pages to chunks: what the whole pipeline keeps. */
module ChunkedDocument {
  import opened Seqs
  import opened DocumentModel
  import opened Outline
  import opened OutlineFacts
  import opened TreeWalk
  import TreeFacts
  import opened ParentChunks
  import opened Paragraphs
  import opened ChildChunks

  // Children of all parents.

  function Lookup(ids: seq<string>, blocks: Blocks): seq<ChunkBlock> {
    if ids == [] then []
    else
      Lookup(ids[..|ids| - 1], blocks)
      + (if ids[|ids| - 1] in blocks then [blocks[ids[|ids| - 1]]] else [])
  }

  function ChildrenOfParent(p: ParentChunk, blocks: Blocks, config: Config, ops: TextOps, hash: Hash): seq<ChildChunk> {
    BuildAll(p.parentId, Drafts(Lookup(p.blockIds, blocks), config.childMax, ops), config.overlap, ops, hash)
  }

  function AllChildren(ps: seq<ParentChunk>, blocks: Blocks, config: Config, ops: TextOps,
                       hash: Hash): seq<ChildChunk> {
    if ps == [] then []
    else
      AllChildren(ps[..|ps| - 1], blocks, config, ops, hash)
      + ChildrenOfParent(ps[|ps| - 1], blocks, config, ops, hash)
  }

  /** `create_child_chunks`. */
  method CreateChildChunks(parents: seq<ParentChunk>, blocks: Blocks, config: Config, ops: TextOps, hash: Hash)
    returns (children: seq<ChildChunk>)
    ensures children == AllChildren(parents, blocks, config, ops, hash)
  {
    hide Drafts, BuildAll;
    children := [];
    for i := 0 to |parents|
      invariant children == AllChildren(parents[..i], blocks, config, ops, hash)
    {
      var ordered: seq<ChunkBlock> := [];
      var ids := parents[i].blockIds;
      for j := 0 to |ids|
        invariant ordered == Lookup(ids[..j], blocks)
      {
        assert ids[..j + 1][..j] == ids[..j];
        if ids[j] in blocks {
          ordered := ordered + [blocks[ids[j]]];
        }
      }
      assert ids[..|ids|] == ids;
      var added := ChunkChildren(parents[i].parentId, ordered, config, ops, hash);
      assert parents[..i + 1][..i] == parents[..i];
      children := children + added;
    }
    assert parents[..|parents|] == parents;
  }

  /** The block table is keyed by block id. */
  ghost predicate Keyed(blocks: Blocks) {
    forall id :: id in blocks ==> blocks[id].id == id
  }

  lemma {:induction false} LookupIds(ids: seq<string>, blocks: Blocks)
    requires Known(ids, blocks) && Keyed(blocks)
    ensures BlockIds(Lookup(ids, blocks)) == ids
  {
    if ids != [] {
      LookupIds(ids[..|ids| - 1], blocks);
      SnocConcat([], ids);
      BlockIdsSnoc(Lookup(ids[..|ids| - 1], blocks), blocks[ids[|ids| - 1]]);
    }
  }

  function ChildRefs(cs: seq<ChildChunk>): (r: seq<seq<string>>)
    ensures |r| == |cs| && forall i :: 0 <= i < |cs| ==> r[i] == cs[i].refs
  {
    seq(|cs|, i requires 0 <= i < |cs| => cs[i].refs)
  }

  lemma {:induction false} BuiltAt(parentId: string, drafts: seq<Draft>, overlap: nat, ops: TextOps, hash: Hash, i: nat)
    requires i < |drafts|
    ensures var cs := BuildAll(parentId, drafts, overlap, ops, hash);
            cs[i] == BuildChild(parentId, cs[..i], drafts[i], overlap, ops, hash)
  {
    hide BuildChild;
    var init := drafts[..|drafts| - 1];
    var cs, before := BuildAll(parentId, drafts, overlap, ops, hash), BuildAll(parentId, init, overlap, ops, hash);
    assert cs[..i] == before[..i];
    if i < |init| {
      BuiltAt(parentId, init, overlap, ops, hash, i);
    } else {
      assert before[..i] == before;
    }
  }

  /** Child `i` is draft `i` with the overlap prefix: its references, its tokens up to the overlap,
      its text after the tail of the child before, and an id that hashes its place. */
  lemma {:induction false} BuiltChild(parentId: string, drafts: seq<Draft>, overlap: nat, ops: TextOps, hash: Hash,
                                      i: nat)
    requires i < |drafts|
    ensures var cs := BuildAll(parentId, drafts, overlap, ops, hash);
            && cs[i].refs == drafts[i].refs && cs[i].parentId == parentId
            && cs[i].childId == hash(ChildKey(parentId, i, drafts[i].refs, cs[i].textHash))
            && drafts[i].tokens <= cs[i].tokens <= drafts[i].tokens + overlap
            && (i == 0 || overlap == 0 ==> cs[i].text == drafts[i].text)
            && (i > 0 ==>
                  var tail := OverlapSuffix(cs[i - 1].text, overlap, ops);
                  cs[i].text == if tail == "" then drafts[i].text else tail + " " + drafts[i].text)
  {
    hide BuildAll;
    BuiltAt(parentId, drafts, overlap, ops, hash, i);
    var cs := BuildAll(parentId, drafts, overlap, ops, hash);
    assert i > 0 ==> cs[..i][i - 1] == cs[i - 1];
  }

  lemma {:induction false} BuiltRefs(parentId: string, drafts: seq<Draft>, overlap: nat, ops: TextOps, hash: Hash)
    ensures ChildRefs(BuildAll(parentId, drafts, overlap, ops, hash)) == Refs(drafts)
  {
    hide BuildAll;
    forall i | 0 <= i < |drafts|
      ensures ChildRefs(BuildAll(parentId, drafts, overlap, ops, hash))[i] == Refs(drafts)[i]
    {
      BuiltChild(parentId, drafts, overlap, ops, hash, i);
    }
  }

  /** The children of one parent: their references collapse to the parent's block list in order. */
  lemma {:induction false} ChildrenCoverParent(p: ParentChunk, blocks: Blocks, config: Config, ops: TextOps, hash: Hash)
    requires Known(p.blockIds, blocks) && Keyed(blocks) && Distinct(p.blockIds)
    ensures Collapse(ChildRefs(ChildrenOfParent(p, blocks, config, ops, hash))) == p.blockIds
  {
    hide Drafts, BuildAll, Collapse;
    var bs := Lookup(p.blockIds, blocks);
    LookupIds(p.blockIds, blocks);
    BuiltRefs(p.parentId, Drafts(bs, config.childMax, ops), config.overlap, ops, hash);
    DraftsCollapse(bs, config.childMax, ops);
  }

  /** Block `k` of a parent is referred to once per piece; when it is atomic or small, exactly once. */
  lemma {:induction false} ChildrenMention(p: ParentChunk, blocks: Blocks, config: Config, ops: TextOps, hash: Hash,
                                           k: nat)
    requires Known(p.blockIds, blocks) && Keyed(blocks) && Distinct(p.blockIds) && k < |p.blockIds|
    ensures var id := p.blockIds[k];
            var count := multiset(Flatten(ChildRefs(ChildrenOfParent(p, blocks, config, ops, hash))))[id];
            && count == Copies(blocks[id], config.childMax, ops)
            && (IsAtomic(blocks[id].kind) || blocks[id].tokens <= config.childMax ==> count == 1)
  {
    hide Drafts, BuildAll, Flatten, Mentions, SplitParagraph;
    var bs := Lookup(p.blockIds, blocks);
    LookupIds(p.blockIds, blocks);
    LookupAt(p.blockIds, blocks, k);
    BuiltRefs(p.parentId, Drafts(bs, config.childMax, ops), config.overlap, ops, hash);
    DraftMentions(bs, config.childMax, ops);
    MentionsOfDistinct(bs, config.childMax, ops, k);
  }

  lemma {:induction false} LookupAt(ids: seq<string>, blocks: Blocks, k: nat)
    requires Known(ids, blocks) && k < |ids|
    ensures |Lookup(ids, blocks)| == |ids| && Lookup(ids, blocks)[k] == blocks[ids[k]]
  {
    var init := ids[..|ids| - 1];
    if k < |init| {
      LookupAt(init, blocks, k);
    } else if init != [] {
      LookupAt(init, blocks, 0);
    }
  }

  /** A child of several blocks never exceeds the child limit plus the overlap. */
  lemma {:induction false} ChildSizes(p: ParentChunk, blocks: Blocks, config: Config, ops: TextOps, hash: Hash, i: nat)
    requires i < |ChildrenOfParent(p, blocks, config, ops, hash)|
    ensures var c := ChildrenOfParent(p, blocks, config, ops, hash)[i];
            |c.refs| >= 2 ==> c.tokens <= config.childMax + config.overlap
  {
    hide Drafts, BuildAll;
    var bs := Lookup(p.blockIds, blocks);
    DraftSizes(bs, config.childMax, ops);
    BuiltChild(p.parentId, Drafts(bs, config.childMax, ops), config.overlap, ops, hash, i);
    assert DraftOk(Drafts(bs, config.childMax, ops)[i], bs, config.childMax);
  }

  // Ids.

  ghost predicate ChildrenCollisionFree(cs: seq<ChildChunk>, hash: Hash) {
    forall i, j, m, n :: 0 <= i < j < |cs| && cs[i].childId == cs[j].childId
      && cs[i].childId == hash(ChildKey(cs[i].parentId, m, cs[i].refs, cs[i].textHash))
      && cs[j].childId == hash(ChildKey(cs[j].parentId, n, cs[j].refs, cs[j].textHash))
      ==> ChildKey(cs[i].parentId, m, cs[i].refs, cs[i].textHash) ==
          ChildKey(cs[j].parentId, n, cs[j].refs, cs[j].textHash)
  }

  /** Child `i` is number `m` of parent `p`. */
  ghost predicate ChildAt(cs: seq<ChildChunk>, ps: seq<ParentChunk>, hash: Hash, i: nat, p: nat, m: nat)
    requires i < |cs|
  {
    && p < |ps| && cs[i].parentId == ps[p].parentId
    && cs[i].childId == hash(ChildKey(cs[i].parentId, m, cs[i].refs, cs[i].textHash))
  }

  /** The parent of child `i` and its number there; later children have a later place. */
  lemma {:induction false} PlaceOf(ps: seq<ParentChunk>, blocks: Blocks, config: Config, ops: TextOps, hash: Hash,
                                   i: nat)
    returns (p: nat, m: nat)
    requires i < |AllChildren(ps, blocks, config, ops, hash)|
    ensures ChildAt(AllChildren(ps, blocks, config, ops, hash), ps, hash, i, p, m)
    ensures i == |AllChildren(ps[..p], blocks, config, ops, hash)| + m
    ensures m < |ChildrenOfParent(ps[p], blocks, config, ops, hash)|
  {
    hide Drafts, BuildAll;
    var init, last := ps[..|ps| - 1], ps[|ps| - 1];
    var before := AllChildren(init, blocks, config, ops, hash);
    if i < |before| {
      p, m := PlaceOf(init, blocks, config, ops, hash, i);
      assert ps[..p] == init[..p] && init[p] == ps[p];
    } else {
      p, m := |ps| - 1, i - |before|;
      BuiltChild(last.parentId, Drafts(Lookup(last.blockIds, blocks), config.childMax, ops), config.overlap, ops, hash,
                 m);
    }
  }

  /** All child ids of a document are distinct when its parent ids are, unless the hash collides. */
  lemma {:induction false} ChildIdsDistinct(ps: seq<ParentChunk>, blocks: Blocks, config: Config, ops: TextOps,
                                            hash: Hash)
    requires forall i, j :: 0 <= i < j < |ps| ==> ps[i].parentId != ps[j].parentId
    requires ChildrenCollisionFree(AllChildren(ps, blocks, config, ops, hash), hash)
    ensures var cs := AllChildren(ps, blocks, config, ops, hash);
            forall i, j :: 0 <= i < j < |cs| ==> cs[i].childId != cs[j].childId
  {
    hide AllChildren, ChildrenOfParent;
    var cs := AllChildren(ps, blocks, config, ops, hash);
    forall i, j | 0 <= i < j < |cs|
      ensures cs[i].childId != cs[j].childId
    {
      var p, m := PlaceOf(ps, blocks, config, ops, hash, i);
      var q, n := PlaceOf(ps, blocks, config, ops, hash, j);
    }
  }

  // The document.

  predicate Indexed(p: Placed) {
    !IsHeading(p) && p.block.kind != HeaderFooter
  }

  /** How often the id of block `i` is indexed, when ids are distinct. */
  lemma {:induction false} IndexedOnce(doc: seq<Placed>, n: nat, i: nat)
    requires Distinct(Ids(doc)) && i < |doc| && n <= |doc|
    ensures IndexedIds(doc, n)[doc[i].block.id] == if i < n && Indexed(doc[i]) then 1 else 0
  {
    if n > 0 {
      IndexedOnce(doc, n - 1, i);
      if i != n - 1 {
        assert Ids(doc)[i] != Ids(doc)[n - 1];
      }
    }
  }

  lemma {:induction false} IndexedFromDocument(doc: seq<Placed>, n: nat, x: string)
    requires n <= |doc| && x in IndexedIds(doc, n)
    ensures exists i :: 0 <= i < |doc| && doc[i].block.id == x
  {
    if doc[n - 1].block.id != x {
      IndexedFromDocument(doc, n - 1, x);
    }
  }

  lemma {:induction false} HeaderFooterStep(doc: seq<Placed>, n: nat)
    requires n < |doc|
    ensures Ids(OfKind(doc, n + 1, HeaderFooter)) ==
            Ids(OfKind(doc, n, HeaderFooter)) + (if doc[n].block.kind == HeaderFooter then [doc[n].block.id] else [])
  {
    IdsAppend(OfKind(doc, n, HeaderFooter), [doc[n]]);
    assert Ids([doc[n]]) == [doc[n].block.id];
    assert OfKind(doc, n, HeaderFooter) + [] == OfKind(doc, n, HeaderFooter);
  }

  lemma {:induction false} HeaderFooterOnce(doc: seq<Placed>, n: nat, i: nat)
    requires Distinct(Ids(doc)) && i < |doc| && n <= |doc|
    ensures multiset(Ids(OfKind(doc, n, HeaderFooter)))[doc[i].block.id] ==
            if i < n && doc[i].block.kind == HeaderFooter then 1 else 0
  {
    if n > 0 {
      HeaderFooterOnce(doc, n - 1, i);
      HeaderFooterStep(doc, n - 1);
      assert i != n - 1 ==> Ids(doc)[i] != Ids(doc)[n - 1];
    }
  }

  function DocumentParents(doc: seq<Placed>, names: Naming, identity: string, blocks: Blocks, max: nat,
                           hash: Hash): seq<ParentChunk>
    requires AllKnown(WalkUnits(FrozenDocument(Complete(doc, names)).nodes), blocks)
  {
    Parents(WalkUnits(FrozenDocument(Complete(doc, names)).nodes), identity, blocks, max, hash)
  }

  /** For a document with distinct block ids: each block that is neither heading nor header/footer
      stands exactly once in the parents' block lists, every other block never, and a block is in
      the header/footer list exactly once when it is one. */
  lemma {:induction false} DocumentPartition(
    doc: seq<Placed>, names: Naming, identity: string, blocks: Blocks, max: nat, hash: Hash, i: nat)
    requires Distinct(Ids(doc)) && i < |doc|
    requires AllKnown(WalkUnits(FrozenDocument(Complete(doc, names)).nodes), blocks)
    ensures var held := multiset(Flatten(ParentIds(DocumentParents(doc, names, identity, blocks, max, hash))));
            && held[doc[i].block.id] == (if Indexed(doc[i]) then 1 else 0)
            && NoRepeats(held)
    ensures multiset(FrozenDocument(Complete(doc, names)).headerFooterIds)[doc[i].block.id] ==
            if doc[i].block.kind == HeaderFooter then 1 else 0
  {
    hide WalkUnits, Parents, Frozen, FrozenAll, Complete, Flatten, ParentIds;
    var tree := FrozenDocument(Complete(doc, names));
    var units := WalkUnits(tree.nodes);
    ParentsCover(units, identity, blocks, max, hash);
    UnitsHoldDocument(doc, names);
    IndexedOnce(doc, |doc|, i);
    forall x | x in IndexedIds(doc, |doc|)
      ensures IndexedIds(doc, |doc|)[x] == 1
    {
      IndexedFromDocument(doc, |doc|, x);
      var k :| 0 <= k < |doc| && doc[k].block.id == x;
      IndexedOnce(doc, |doc|, k);
    }
    HeaderFooterOnce(doc, |doc|, i);
    TreeFactsHeader(doc, names);
  }

  lemma {:induction false} TreeFactsHeader(doc: seq<Placed>, names: Naming)
    ensures Complete(doc, names).headerFooter == OfKind(doc, |doc|, HeaderFooter)
  {
    TreeFacts.CompleteFaithful(doc, names);
  }

  /** The same, parent by parent: such a block is in one parent and in no other, and all parent ids
      and child ids of the document are distinct unless the hash collides on its own inputs. */
  lemma {:induction false} ExactlyOneParent(
    doc: seq<Placed>, names: Naming, identity: string, blocks: Blocks, max: nat, hash: Hash, i: nat) returns (p: nat)
    requires Distinct(Ids(doc)) && i < |doc| && Indexed(doc[i])
    requires AllKnown(WalkUnits(FrozenDocument(Complete(doc, names)).nodes), blocks)
    ensures var ps := DocumentParents(doc, names, identity, blocks, max, hash);
            && p < |ps| && multiset(ps[p].blockIds)[doc[i].block.id] == 1
            && forall q :: 0 <= q < |ps| && q != p ==> doc[i].block.id !in ps[q].blockIds
  {
    hide DocumentParents;
    DocumentPartition(doc, names, identity, blocks, max, hash, i);
    var ps := DocumentParents(doc, names, identity, blocks, max, hash);
    var x := doc[i].block.id;
    p := FlattenFind(ParentIds(ps), x);
    forall q | 0 <= q < |ps| && q != p
      ensures x !in ps[q].blockIds
    {
      if x in ps[q].blockIds {
        assert ParentIds(ps)[q] == ps[q].blockIds && ParentIds(ps)[p] == ps[p].blockIds;
        FlattenApart(ParentIds(ps), Min(p, q), Max(p, q), x);
        assert false;
      }
    }
  }

  lemma {:induction false} FlattenFind<T>(parts: seq<seq<T>>, x: T) returns (p: nat)
    requires multiset(Flatten(parts))[x] == 1
    ensures p < |parts| && x in parts[p] && multiset(parts[p])[x] == 1
  {
    if multiset(parts[0])[x] > 0 {
      p := 0;
    } else {
      var q := FlattenFind(parts[1..], x);
      p := q + 1;
    }
  }

  /** The ids of a document's chunks. */
  lemma {:induction false} DocumentIdsDistinct(
    doc: seq<Placed>, names: Naming, identity: string, blocks: Blocks, config: Config, ops: TextOps, hash: Hash)
    requires Distinct(Ids(doc))
    requires AllKnown(WalkUnits(FrozenDocument(Complete(doc, names)).nodes), blocks)
    requires ParentsCollisionFree(DocumentParents(doc, names, identity, blocks, config.parentMax, hash), identity, hash)
    requires ChildrenCollisionFree(
               AllChildren(DocumentParents(doc, names, identity, blocks, config.parentMax, hash), blocks, config, ops,
                           hash), hash)
    ensures var ps := DocumentParents(doc, names, identity, blocks, config.parentMax, hash);
            var cs := AllChildren(ps, blocks, config, ops, hash);
            && (forall i, j :: 0 <= i < j < |ps| ==> ps[i].parentId != ps[j].parentId)
            && (forall i, j :: 0 <= i < j < |cs| ==> cs[i].childId != cs[j].childId)
  {
    hide WalkUnits, Parents, Frozen, FrozenAll, Complete, AllChildren;
    var units := WalkUnits(FrozenDocument(Complete(doc, names)).nodes);
    UnitsHoldDocument(doc, names);
    assert NoRepeats(multiset(UnitIds(units))) by {
      forall x | x in IndexedIds(doc, |doc|)
        ensures IndexedIds(doc, |doc|)[x] == 1
      {
        IndexedFromDocument(doc, |doc|, x);
        var k :| 0 <= k < |doc| && doc[k].block.id == x;
        IndexedOnce(doc, |doc|, k);
      }
    }
    UnitsNonempty(FrozenDocument(Complete(doc, names)).nodes);
    ParentIdsDistinct(units, identity, blocks, config.parentMax, hash);
    var ps := DocumentParents(doc, names, identity, blocks, config.parentMax, hash);
    assert ps == Parents(units, identity, blocks, config.parentMax, hash);
    ChildIdsDistinct(ps, blocks, config, ops, hash);
  }
}
