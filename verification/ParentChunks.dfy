/** Parent chunks: one per unit of the tree, or a greedy run of groups when a unit is too large. */
module ParentChunks {
  import opened Seqs
  import opened DocumentModel
  import opened Outline
  import opened TreeWalk

  datatype ChunkBlock = ChunkBlock(id: string, kind: BlockType, text: Option<string>, tokens: nat)

  type Blocks = map<string, ChunkBlock>

  datatype Config = Config(
    parentTarget: nat, parentMax: nat, childTarget: nat, childMax: nat, overlap: nat,
    preserveTables: bool, preserveFormulas: bool)

  /** What is hashed: the key sets of the three canonical JSON objects tell them apart. */
  datatype Payload =
    | ConfigKey(config: Config)
    | ParentKey(identity: string, path: seq<string>, ids: seq<string>)
    | ChildKey(parentId: string, order: nat, refs: seq<string>, textHash: string)

  type Hash = Payload -> string

  datatype ParentChunk = ParentChunk(
    parentId: string, path: seq<string>, pageFrom: nat, pageTo: nat, blockIds: seq<string>,
    text: string, tokens: nat, contextPrefix: string)

  predicate Known(ids: seq<string>, blocks: Blocks) {
    forall i :: 0 <= i < |ids| ==> ids[i] in blocks
  }

  function Tokens(ids: seq<string>, blocks: Blocks): nat
    requires Known(ids, blocks)
  {
    if ids == [] then 0 else Tokens(ids[..|ids| - 1], blocks) + blocks[ids[|ids| - 1]].tokens
  }

  lemma {:induction false} TokensSuffix(a: seq<string>, b: seq<string>, blocks: Blocks)
    requires Known(a + b, blocks)
    ensures Known(a, blocks) && Known(b, blocks) && Tokens(a + b, blocks) == Tokens(a, blocks) + Tokens(b, blocks)
  {
    forall i | 0 <= i < |a|
      ensures a[i] in blocks
    {
      assert (a + b)[i] == a[i];
    }
    forall i | 0 <= i < |b|
      ensures b[i] in blocks
    {
      assert (a + b)[|a| + i] == b[i];
    }
    if b == [] {
      assert a + b == a;
    } else {
      assert (a + b)[..|a + b| - 1] == a + b[..|b| - 1];
      TokensSuffix(a, b[..|b| - 1], blocks);
    }
  }

  // Greedy grouping.

  /** Extend the last group while it stays within the limit, else open a new one. */
  function Grouped(ids: seq<string>, blocks: Blocks, max: nat): (r: seq<seq<string>>)
    requires Known(ids, blocks)
    ensures ids != [] ==> r != []
    ensures forall k :: 0 <= k < |r| ==> r[k] != [] && Known(r[k], blocks)
  {
    if ids == [] then []
    else
      var x := ids[|ids| - 1];
      var g := Grouped(ids[..|ids| - 1], blocks, max);
      if g != [] && Tokens(g[|g| - 1], blocks) + blocks[x].tokens <= max
      then g[..|g| - 1] + [g[|g| - 1] + [x]]
      else g + [[x]]
  }

  /** A contiguous partition of `ids` into non-empty groups, each within the limit or a single block. */
  ghost predicate Partition(groups: seq<seq<string>>, ids: seq<string>, blocks: Blocks, max: nat)
    requires Known(ids, blocks)
  {
    && Flatten(groups) == ids
    && forall k :: 0 <= k < |groups| ==>
         && groups[k] != [] && Known(groups[k], blocks)
         && (Tokens(groups[k], blocks) <= max || |groups[k]| == 1)
  }

  lemma {:induction false} FlattenLast<T>(parts: seq<seq<T>>)
    requires parts != []
    ensures Flatten(parts) == Flatten(parts[..|parts| - 1]) + parts[|parts| - 1]
  {
    assert parts == parts[..|parts| - 1] + [parts[|parts| - 1]];
    FlattenSnoc(parts[..|parts| - 1], parts[|parts| - 1]);
  }

  lemma {:induction false} TokensSnoc(ids: seq<string>, id: string, blocks: Blocks)
    requires Known(ids, blocks) && id in blocks
    ensures Known(ids + [id], blocks) && Tokens(ids + [id], blocks) == Tokens(ids, blocks) + blocks[id].tokens
    ensures Tokens([], blocks) == 0 && [] + [id] == [id]
  {
    assert (ids + [id])[..|ids|] == ids;
  }

  lemma {:induction false} PartitionNew(g: seq<seq<string>>, ids: seq<string>, x: string, blocks: Blocks, max: nat)
    requires Known(ids, blocks) && x in blocks && Partition(g, ids, blocks, max)
    ensures Partition(g + [[x]], ids + [x], blocks, max)
  {
    FlattenSnoc(g, [x]);
    hide Flatten, Tokens;
  }

  lemma {:induction false} PartitionGrow(g: seq<seq<string>>, ids: seq<string>, x: string, blocks: Blocks, max: nat)
    requires Known(ids, blocks) && x in blocks && Partition(g, ids, blocks, max)
    requires g != [] && Tokens(g[|g| - 1], blocks) + blocks[x].tokens <= max
    ensures Partition(g[..|g| - 1] + [g[|g| - 1] + [x]], ids + [x], blocks, max)
  {
    FlattenGrow(g, x);
    TokensSnoc(g[|g| - 1], x, blocks);
    hide Flatten, Tokens;
  }

  lemma {:induction false} GroupedPartitions(ids: seq<string>, blocks: Blocks, max: nat)
    requires Known(ids, blocks)
    ensures Partition(Grouped(ids, blocks, max), ids, blocks, max)
  {
    if ids != [] {
      var init, x := ids[..|ids| - 1], ids[|ids| - 1];
      GroupedPartitions(init, blocks, max);
      var g := Grouped(init, blocks, max);
      assert ids == init + [x];
      hide Partition, Tokens;
      if g != [] && Tokens(g[|g| - 1], blocks) + blocks[x].tokens <= max {
        PartitionGrow(g, init, x, blocks, max);
      } else {
        PartitionNew(g, init, x, blocks, max);
      }
    }
  }

  /** Dropping the last block of a partition leaves a partition of the rest. */
  lemma {:induction false} PartitionInit(p: seq<seq<string>>, ids: seq<string>, blocks: Blocks, max: nat)
    returns (q: seq<seq<string>>)
    requires Known(ids, blocks) && ids != [] && Partition(p, ids, blocks, max)
    ensures p != []
    ensures Partition(q, ids[..|ids| - 1], blocks, max)
    ensures var last := p[|p| - 1];
            if |last| == 1 then q == p[..|p| - 1] else q == p[..|p| - 1] + [last[..|last| - 1]]
  {
    FlattenLast(p);
    var rest, last := p[..|p| - 1], p[|p| - 1];
    if |last| == 1 {
      q := rest;
      assert Flatten(rest) == ids[..|ids| - 1];
    } else {
      var shorter := last[..|last| - 1];
      q := rest + [shorter];
      FlattenSnoc(rest, shorter);
      assert last == shorter + [last[|last| - 1]];
      assert Flatten(q) == ids[..|ids| - 1];
    }
  }

  /** Of two suffixes of one sequence, the shorter has no more tokens. */
  lemma {:induction false} ShorterSuffix(a: seq<string>, s: seq<string>, b: seq<string>, t: seq<string>, blocks: Blocks)
    requires a + s == b + t && |s| <= |t| && Known(t, blocks)
    ensures Known(s, blocks) && Tokens(s, blocks) <= Tokens(t, blocks)
  {
    var front := t[..|t| - |s|];
    forall i | 0 <= i < |s|
      ensures s[i] == t[|t| - |s| + i]
    {
      assert (a + s)[|a| + i] == s[i];
      assert (b + t)[|b| + (|t| - |s| + i)] == t[|t| - |s| + i];
    }
    assert t == front + s;
    TokensSuffix(front, s, blocks);
  }

  /** Greedy stays ahead: never more groups, and at equal count a last group that is no longer. */
  lemma {:induction false} GreedyAhead(p: seq<seq<string>>, ids: seq<string>, blocks: Blocks, max: nat)
    requires Known(ids, blocks) && Partition(p, ids, blocks, max)
    ensures var g := Grouped(ids, blocks, max);
            |g| < |p| || (|g| == |p| && (g != [] ==> |g[|g| - 1]| <= |p[|p| - 1]|))
    decreases |ids|
  {
    if ids != [] {
      var init, x := ids[..|ids| - 1], ids[|ids| - 1];
      var q := PartitionInit(p, ids, blocks, max);
      GreedyAhead(q, init, blocks, max);
      var g := Grouped(init, blocks, max);
      var last := p[|p| - 1];
      if |last| > 1 && |g| == |q| {
        GroupedPartitions(init, blocks, max);
        FlattenLast(g);
        FlattenLast(q);
        var shorter := last[..|last| - 1];
        ShorterSuffix(Flatten(g[..|g| - 1]), g[|g| - 1], Flatten(q[..|q| - 1]), shorter, blocks);
        FlattenLast(p);
        assert last[|last| - 1] == ids[|ids| - 1];
        assert Tokens(last, blocks) == Tokens(shorter, blocks) + blocks[x].tokens;
      }
    }
  }

  /** No partition that meets the same limit has fewer groups. */
  lemma {:induction false} GreedyOptimal(p: seq<seq<string>>, ids: seq<string>, blocks: Blocks, max: nat)
    requires Known(ids, blocks) && Partition(p, ids, blocks, max)
    ensures |Grouped(ids, blocks, max)| <= |p|
  {
    GreedyAhead(p, ids, blocks, max);
  }

  lemma {:induction false} FirstGroup(ids: seq<string>, blocks: Blocks, max: nat)
    requires ids != [] && Known(ids[..1], blocks)
    ensures Grouped(ids[..1], blocks, max) == [[ids[0]]]
  {
    assert ids[..1][..0] == [];
  }

  lemma {:induction false} GroupedNext(ids: seq<string>, i: nat, blocks: Blocks, max: nat, groups: seq<seq<string>>,
                                       current: seq<string>)
    requires 0 < i < |ids| && Known(ids[..i + 1], blocks) && Known(ids[..i], blocks) && Known(current, blocks)
    requires groups + [current] == Grouped(ids[..i], blocks, max)
    ensures Grouped(ids[..i + 1], blocks, max)
            == if Tokens(current, blocks) + blocks[ids[i]].tokens <= max then groups + [current + [ids[i]]]
               else (groups + [current]) + [[ids[i]]]
  {
    hide Tokens;
    var g := groups + [current];
    assert ids[..i + 1][..i] == ids[..i] && ids[..i + 1][i] == ids[i];
    assert g[..|g| - 1] == groups;
  }

  /** `_split_groups`; a missing block raises KeyError. */
  method SplitGroups(ids: seq<string>, blocks: Blocks, max: nat) returns (r: Result<seq<seq<string>>, string>)
    ensures r.Ok? <==> Known(ids, blocks)
    ensures r.Ok? ==> r.value == Grouped(ids, blocks, max) && Partition(r.value, ids, blocks, max)
    ensures r.Ok? ==> forall p :: Partition(p, ids, blocks, max) ==> |r.value| <= |p|
    ensures r.Err? ==> r.error in ids && r.error !in blocks
  {
    var groups: seq<seq<string>> := [];
    var current: seq<string> := [];
    var currentTokens := 0;
    var i := 0;
    assert Tokens(current, blocks) == 0;
    hide Partition, Tokens, Grouped;
    while i < |ids|
      invariant 0 <= i <= |ids| && Known(ids[..i], blocks) && Known(current, blocks)
      invariant currentTokens == Tokens(current, blocks)
      invariant (current == [] <==> i == 0) && (i == 0 ==> groups == [])
      invariant i > 0 ==> groups + [current] == Grouped(ids[..i], blocks, max)
    {
      var id := ids[i];
      if id !in blocks {
        return Err(id);
      }
      var tokens := blocks[id].tokens;
      if i > 0 {
        GroupedNext(ids, i, blocks, max, groups, current);
      } else {
        FirstGroup(ids, blocks, max);
      }
      if current != [] && currentTokens + tokens > max {
        groups := groups + [current];
        current, currentTokens := [], 0;
      }
      TokensSnoc(current, id, blocks);
      current := current + [id];
      currentTokens := currentTokens + tokens;
      i := i + 1;
    }
    assert ids[..|ids|] == ids;
    if current != [] {
      groups := groups + [current];
    }
    GroupedPartitions(ids, blocks, max);
    forall p | Partition(p, ids, blocks, max)
      ensures |groups| <= |p|
    {
      GreedyOptimal(p, ids, blocks, max);
    }
    return Ok(groups);
  }

  // Parents.

  function ChunkTexts(ids: seq<string>, blocks: Blocks): seq<string>
    requires Known(ids, blocks)
  {
    seq(|ids|, i requires 0 <= i < |ids| => match blocks[ids[i]].text case Some(t) => t case None => "")
  }

  function MakeParent(unit: Tree, ids: seq<string>, identity: string, blocks: Blocks, hash: Hash): ParentChunk
    requires Known(ids, blocks)
  {
    ParentChunk(
      hash(ParentKey(identity, unit.path, ids)), unit.path, unit.pageFrom, unit.pageTo, ids,
      Join("\n", ChunkTexts(ids, blocks)), Tokens(ids, blocks), Join(" / ", unit.path))
  }

  /** The block lists of the parents of one unit. */
  function UnitGroups(unit: Tree, blocks: Blocks, max: nat): (r: seq<seq<string>>)
    requires Known(unit.blockIds, blocks)
    ensures forall k :: 0 <= k < |r| ==> Known(r[k], blocks)
  {
    if unit.kind == AtomicGroup || Tokens(unit.blockIds, blocks) <= max then [unit.blockIds]
    else Grouped(unit.blockIds, blocks, max)
  }

  function MakeParents(unit: Tree, groups: seq<seq<string>>, identity: string, blocks: Blocks,
                       hash: Hash): (r: seq<ParentChunk>)
    requires forall k :: 0 <= k < |groups| ==> Known(groups[k], blocks)
    ensures |r| == |groups|
    ensures forall k :: 0 <= k < |groups| ==> r[k] == MakeParent(unit, groups[k], identity, blocks, hash)
  {
    seq(|groups|, k requires 0 <= k < |groups| => MakeParent(unit, groups[k], identity, blocks, hash))
  }

  predicate AllKnown(units: seq<Tree>, blocks: Blocks) {
    forall u :: 0 <= u < |units| ==> Known(units[u].blockIds, blocks)
  }

  function Parents(units: seq<Tree>, identity: string, blocks: Blocks, max: nat, hash: Hash): seq<ParentChunk>
    requires AllKnown(units, blocks)
  {
    if units == [] then []
    else
      var last := units[|units| - 1];
      Parents(units[..|units| - 1], identity, blocks, max, hash)
      + MakeParents(last, UnitGroups(last, blocks, max), identity, blocks, hash)
  }

  function Identity(version: string, config: Config, hash: Hash): string {
    version + ":" + hash(ConfigKey(config))
  }

  method UnitParents(unit: Tree, identity: string, blocks: Blocks, config: Config, hash: Hash)
    returns (r: Result<seq<ParentChunk>, string>)
    ensures r.Ok? <==> Known(unit.blockIds, blocks)
    ensures r.Ok? ==> r.value == MakeParents(unit, UnitGroups(unit, blocks, config.parentMax), identity, blocks, hash)
  {
    var total := KnownTokens(unit.blockIds, blocks);
    if unit.kind == AtomicGroup || total <= config.parentMax {
      if exists i :: 0 <= i < |unit.blockIds| && unit.blockIds[i] !in blocks {
        var i :| 0 <= i < |unit.blockIds| && unit.blockIds[i] !in blocks;
        return Err(unit.blockIds[i]);
      }
      return Ok([MakeParent(unit, unit.blockIds, identity, blocks, hash)]);
    }
    var split := SplitGroups(unit.blockIds, blocks, config.parentMax);
    if split.Err? {
      return Err(split.error);
    }
    return Ok(MakeParents(unit, split.value, identity, blocks, hash));
  }

  /** `create_parent_chunks`: succeeds exactly when every block of the tree is known. */
  method CreateParentChunks(tree: DocumentTree, version: string, blocks: Blocks, config: Config, hash: Hash)
    returns (r: Result<seq<ParentChunk>, string>)
    ensures r.Ok? <==> AllKnown(WalkUnits(tree.nodes), blocks)
    ensures r.Ok? ==>
              r.value == Parents(WalkUnits(tree.nodes), Identity(version, config, hash), blocks, config.parentMax, hash)
  {
    hide UnitGroups, MakeParents, WalkUnits, Known;
    var identity := Identity(version, config, hash);
    var units := WalkUnits(tree.nodes);
    var parents: seq<ParentChunk> := [];
    var u := 0;
    while u < |units|
      invariant 0 <= u <= |units| && AllKnown(units[..u], blocks)
      invariant parents == Parents(units[..u], identity, blocks, config.parentMax, hash)
    {
      var made := UnitParents(units[u], identity, blocks, config, hash);
      if made.Err? {
        return Err(made.error);
      }
      assert units[..u + 1][..u] == units[..u];
      parents := parents + made.value;
      u := u + 1;
    }
    assert units[..|units|] == units;
    return Ok(parents);
  }

  /** A unit's total: the tokens of its known blocks, the others count nothing. */
  method KnownTokens(ids: seq<string>, blocks: Blocks) returns (total: nat)
    ensures Known(ids, blocks) ==> total == Tokens(ids, blocks)
  {
    total := 0;
    for i := 0 to |ids|
      invariant Known(ids, blocks) ==> Known(ids[..i], blocks) && total == Tokens(ids[..i], blocks)
    {
      assert ids[..i + 1][..i] == ids[..i];
      if ids[i] in blocks {
        total := total + blocks[ids[i]].tokens;
      }
    }
    assert ids[..|ids|] == ids;
  }

  // What the parents hold.

  function ParentIds(parents: seq<ParentChunk>): seq<seq<string>> {
    seq(|parents|, i requires 0 <= i < |parents| => parents[i].blockIds)
  }

  lemma {:induction false} GroupsFlatten(unit: Tree, blocks: Blocks, max: nat)
    requires Known(unit.blockIds, blocks)
    ensures Flatten(UnitGroups(unit, blocks, max)) == unit.blockIds
  {
    GroupedPartitions(unit.blockIds, blocks, max);
    assert Flatten([unit.blockIds]) == unit.blockIds;
  }

  lemma {:induction false} UnitIdsSnoc(units: seq<Tree>)
    requires units != []
    ensures UnitIds(units) == UnitIds(units[..|units| - 1]) + units[|units| - 1].blockIds
  {
    var init, last := units[..|units| - 1], units[|units| - 1];
    assert units == init + [last];
    UnitIdsConcat(init, [last]);
    assert UnitIds([last]) == last.blockIds;
  }

  lemma {:induction false} ParentIdsMade(before: seq<ParentChunk>, unit: Tree, groups: seq<seq<string>>,
                                         identity: string, blocks: Blocks, hash: Hash)
    requires forall k :: 0 <= k < |groups| ==> Known(groups[k], blocks)
    ensures ParentIds(before + MakeParents(unit, groups, identity, blocks, hash)) == ParentIds(before) + groups
  {
  }

  /** Laid end to end, the parents' block lists are the units' block lists. */
  lemma {:induction false} ParentsCover(units: seq<Tree>, identity: string, blocks: Blocks, max: nat, hash: Hash)
    requires AllKnown(units, blocks)
    ensures Flatten(ParentIds(Parents(units, identity, blocks, max, hash))) == UnitIds(units)
  {
    if units != [] {
      hide UnitGroups, MakeParents, UnitIds, Flatten, ParentIds, Known;
      var init, last := units[..|units| - 1], units[|units| - 1];
      ParentsCover(init, identity, blocks, max, hash);
      var groups := UnitGroups(last, blocks, max);
      var before := Parents(init, identity, blocks, max, hash);
      ParentIdsMade(before, last, groups, identity, blocks, hash);
      FlattenAppend(ParentIds(before), groups);
      GroupsFlatten(last, blocks, max);
      UnitIdsSnoc(units);
    }
  }

  /** A parent takes its path and pages from one unit, is never empty, and exceeds the limit only
      as a single block or as an atomic group; its id hashes its own path and block list. */
  ghost predicate ParentOk(p: ParentChunk, units: seq<Tree>, identity: string, blocks: Blocks, max: nat, hash: Hash) {
    && p.blockIds != [] && Known(p.blockIds, blocks) && p.tokens == Tokens(p.blockIds, blocks)
    && p.text == Join("\n", ChunkTexts(p.blockIds, blocks)) && p.contextPrefix == Join(" / ", p.path)
    && p.parentId == hash(ParentKey(identity, p.path, p.blockIds))
    && exists u :: 0 <= u < |units|
         && p.path == units[u].path && p.pageFrom == units[u].pageFrom && p.pageTo == units[u].pageTo
         && (if units[u].kind == AtomicGroup then p.blockIds == units[u].blockIds
             else p.tokens <= max || |p.blockIds| == 1)
  }

  lemma {:induction false} ParentsOk(units: seq<Tree>, identity: string, blocks: Blocks, max: nat, hash: Hash, i: nat)
    requires AllKnown(units, blocks) && i < |Parents(units, identity, blocks, max, hash)|
    requires forall u :: 0 <= u < |units| ==> units[u].blockIds != []
    ensures ParentOk(Parents(units, identity, blocks, max, hash)[i], units, identity, blocks, max, hash)
  {
    var init, last := units[..|units| - 1], units[|units| - 1];
    var before := Parents(init, identity, blocks, max, hash);
    if i < |before| {
      ParentsOk(init, identity, blocks, max, hash, i);
    } else {
      GroupedPartitions(last.blockIds, blocks, max);
      assert units[|units| - 1] == last;
    }
  }

  /** Two positions of a flattened list never share an element when its elements are distinct. */
  lemma {:induction false} FlattenApart<T>(parts: seq<seq<T>>, i: nat, j: nat, x: T)
    requires i < j < |parts| && x in parts[i] && x in parts[j]
    ensures multiset(Flatten(parts))[x] >= 2
  {
    var head, mid, tail := parts[..i], parts[i + 1..j], parts[j + 1..];
    assert parts == head + ([parts[i]] + (mid + ([parts[j]] + tail)));
    FlattenAppend(head, [parts[i]] + (mid + ([parts[j]] + tail)));
    FlattenAppend([parts[i]], mid + ([parts[j]] + tail));
    FlattenAppend(mid, [parts[j]] + tail);
    FlattenAppend([parts[j]], tail);
    assert Flatten([parts[i]]) == parts[i] && Flatten([parts[j]]) == parts[j];
    assert multiset(parts[i])[x] >= 1 && multiset(parts[j])[x] >= 1;
  }

  ghost predicate NoRepeats(ids: multiset<string>) {
    forall x :: x in ids ==> ids[x] == 1
  }

  /** No two of the parents' hash inputs collide. */
  ghost predicate ParentsCollisionFree(parents: seq<ParentChunk>, identity: string, hash: Hash) {
    forall i, j :: 0 <= i < j < |parents| && parents[i].parentId == parents[j].parentId ==>
      ParentKey(identity, parents[i].path, parents[i].blockIds)
        == ParentKey(identity, parents[j].path, parents[j].blockIds)
  }

  /** Parents of distinct blocks have distinct ids, unless the hash collides on two of their keys. */
  lemma {:induction false} ParentIdsDistinct(units: seq<Tree>, identity: string, blocks: Blocks, max: nat, hash: Hash)
    requires AllKnown(units, blocks) && NoRepeats(multiset(UnitIds(units)))
    requires forall u :: 0 <= u < |units| ==> units[u].blockIds != []
    requires ParentsCollisionFree(Parents(units, identity, blocks, max, hash), identity, hash)
    ensures var ps := Parents(units, identity, blocks, max, hash);
            forall i, j :: 0 <= i < j < |ps| ==> ps[i].parentId != ps[j].parentId
  {
    var ps := Parents(units, identity, blocks, max, hash);
    ParentsCover(units, identity, blocks, max, hash);
    forall i, j | 0 <= i < j < |ps|
      ensures ps[i].parentId != ps[j].parentId
    {
      ParentsOk(units, identity, blocks, max, hash, i);
      if ps[i].parentId == ps[j].parentId {
        var x := ps[i].blockIds[0];
        assert ParentIds(ps)[i] == ps[i].blockIds && ParentIds(ps)[j] == ps[j].blockIds;
        FlattenApart(ParentIds(ps), i, j, x);
        assert false;
      }
    }
  }
}
