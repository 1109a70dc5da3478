/** Child chunks: runs of small blocks, oversized blocks on their own or cut into pieces, each
    child prefixed with the tail of the one before. */
module ChildChunks {
  import opened Seqs
  import opened DocumentModel
  import opened ParentChunks
  import opened Paragraphs

  /** A child before its overlap prefix and id. */
  datatype Draft = Draft(refs: seq<string>, text: string, tokens: nat)

  datatype ChildChunk = ChildChunk(
    childId: string, parentId: string, refs: seq<string>, text: string, normalized: string, tokens: nat,
    textHash: string)

  datatype Scan = Scan(drafts: seq<Draft>, current: seq<ChunkBlock>)

  function ChunkText(b: ChunkBlock): string {
    match b.text
    case Some(t) => t
    case None => ""
  }

  function BlockIds(bs: seq<ChunkBlock>): (r: seq<string>)
    ensures |r| == |bs| && forall i :: 0 <= i < |bs| ==> r[i] == bs[i].id
  {
    seq(|bs|, i requires 0 <= i < |bs| => bs[i].id)
  }

  function BlockTexts(bs: seq<ChunkBlock>): (r: seq<string>)
    ensures |r| == |bs| && forall i :: 0 <= i < |bs| ==> r[i] == ChunkText(bs[i])
  {
    seq(|bs|, i requires 0 <= i < |bs| => ChunkText(bs[i]))
  }

  function BlockTokens(bs: seq<ChunkBlock>): nat {
    if bs == [] then 0 else BlockTokens(bs[..|bs| - 1]) + bs[|bs| - 1].tokens
  }

  function CloseDraft(bs: seq<ChunkBlock>): Draft {
    Draft(BlockIds(bs), Join("\n", BlockTexts(bs)), BlockTokens(bs))
  }

  function PieceDrafts(id: string, parts: seq<(string, nat)>): (r: seq<Draft>)
    ensures |r| == |parts|
    ensures forall k :: 0 <= k < |parts| ==> r[k] == Draft([id], parts[k].0, parts[k].1)
  {
    seq(|parts|, k requires 0 <= k < |parts| => Draft([id], parts[k].0, parts[k].1))
  }

  /** An oversized block on its own: whole when atomic, else cut at sentences. */
  function Oversized(b: ChunkBlock, max: nat, ops: TextOps): (r: seq<Draft>)
    ensures r != []
    ensures forall k :: 0 <= k < |r| ==> r[k].refs == [b.id]
  {
    if IsAtomic(b.kind) then [Draft([b.id], ChunkText(b), b.tokens)]
    else PieceDrafts(b.id, SplitParagraph(ChunkText(b), b.tokens, max, ops))
  }

  function Settle(s: Scan): Scan {
    if s.current == [] then s else Scan(s.drafts + [CloseDraft(s.current)], [])
  }

  function ScanBlock(s: Scan, b: ChunkBlock, max: nat, ops: TextOps): Scan {
    var t := if BlockTokens(s.current) + b.tokens > max then Settle(s) else s;
    if b.tokens > max then t.(drafts := t.drafts + Oversized(b, max, ops))
    else t.(current := t.current + [b])
  }

  function ScanAll(bs: seq<ChunkBlock>, max: nat, ops: TextOps): Scan {
    if bs == [] then Scan([], []) else ScanBlock(ScanAll(bs[..|bs| - 1], max, ops), bs[|bs| - 1], max, ops)
  }

  function Drafts(bs: seq<ChunkBlock>, max: nat, ops: TextOps): seq<Draft> {
    Settle(ScanAll(bs, max, ops)).drafts
  }

  /** The last `tokens` words of the text, or its last `tokens` characters when it has fewer words. */
  function OverlapSuffix(text: string, tokens: nat, ops: TextOps): string {
    if text == "" || tokens == 0 then ""
    else
      var words := ops.words(text);
      if |words| >= tokens then Join(" ", words[|words| - tokens..])
      else text[Max(|text| - tokens, 0)..]
  }

  function Prefix(before: seq<ChildChunk>, overlap: nat, ops: TextOps): string {
    if overlap > 0 && before != [] then OverlapSuffix(before[|before| - 1].text, overlap, ops) else ""
  }

  /** The closure `build`: the next child after `before`. */
  function BuildChild(parentId: string, before: seq<ChildChunk>, d: Draft, overlap: nat, ops: TextOps,
                      hash: Hash): ChildChunk {
    var prefix := Prefix(before, overlap, ops);
    var text := if prefix != "" then prefix + " " + d.text else d.text;
    var tokens := if prefix != "" then d.tokens + overlap else d.tokens;
    var normalized := ops.normalize(text);
    ChildChunk(hash(ChildKey(parentId, |before|, d.refs, ops.textHash(normalized))), parentId, d.refs, text, normalized,
               tokens, ops.textHash(normalized))
  }

  function BuildAll(parentId: string, drafts: seq<Draft>, overlap: nat, ops: TextOps, hash: Hash): (r: seq<ChildChunk>)
    ensures |r| == |drafts|
  {
    if drafts == [] then []
    else
      var before := BuildAll(parentId, drafts[..|drafts| - 1], overlap, ops, hash);
      before + [BuildChild(parentId, before, drafts[|drafts| - 1], overlap, ops, hash)]
  }

  lemma {:induction false} BuildSnoc(parentId: string, drafts: seq<Draft>, d: Draft, overlap: nat, ops: TextOps,
                                     hash: Hash)
    ensures var before := BuildAll(parentId, drafts, overlap, ops, hash);
            BuildAll(parentId, drafts + [d], overlap, ops, hash)
              == before + [BuildChild(parentId, before, d, overlap, ops, hash)]
  {
    assert (drafts + [d])[..|drafts|] == drafts;
  }

  /** `_chunk_children`. */
  method ChunkChildren(parentId: string, ordered: seq<ChunkBlock>, config: Config, ops: TextOps, hash: Hash)
    returns (children: seq<ChildChunk>)
    ensures children == BuildAll(parentId, Drafts(ordered, config.childMax, ops), config.overlap, ops, hash)
  {
    hide CloseDraft, Oversized, BuildAll, BuildChild;
    children := [];
    ghost var drafts: seq<Draft> := [];
    var current: seq<ChunkBlock> := [];
    assert BuildAll(parentId, [], config.overlap, ops, hash) == [];
    var i := 0;
    while i < |ordered|
      invariant 0 <= i <= |ordered|
      invariant Scan(drafts, current) == ScanAll(ordered[..i], config.childMax, ops)
      invariant children == BuildAll(parentId, drafts, config.overlap, ops, hash)
    {
      var blk := ordered[i];
      assert ordered[..i + 1][..i] == ordered[..i];
      ghost var before := Scan(drafts, current);
      if current != [] && BlockTokens(current) + blk.tokens > config.childMax {
        BuildSnoc(parentId, drafts, CloseDraft(current), config.overlap, ops, hash);
        children := children + [BuildChild(parentId, children, CloseDraft(current), config.overlap, ops, hash)];
        drafts := drafts + [CloseDraft(current)];
        current := [];
      }
      if blk.tokens > config.childMax {
        var cut := CutOversized(blk, config.childMax, ops);
        children := AppendDrafts(parentId, drafts, children, cut, config, ops, hash);
        drafts := drafts + cut;
      } else {
        current := current + [blk];
      }
      assert Scan(drafts, current) == ScanBlock(before, blk, config.childMax, ops);
      i := i + 1;
    }
    assert ordered[..|ordered|] == ordered;
    if current != [] {
      BuildSnoc(parentId, drafts, CloseDraft(current), config.overlap, ops, hash);
      children := children + [BuildChild(parentId, children, CloseDraft(current), config.overlap, ops, hash)];
    }
  }

  method CutOversized(b: ChunkBlock, max: nat, ops: TextOps) returns (r: seq<Draft>)
    ensures r == Oversized(b, max, ops)
  {
    if IsAtomic(b.kind) {
      r := [Draft([b.id], ChunkText(b), b.tokens)];
    } else {
      var parts := SplitLargeParagraph(ChunkText(b), b.tokens, max, ops);
      r := PieceDrafts(b.id, parts);
    }
  }

  method AppendDrafts(parentId: string, ghost done: seq<Draft>, before: seq<ChildChunk>, added: seq<Draft>,
                      config: Config, ops: TextOps, hash: Hash)
    returns (children: seq<ChildChunk>)
    requires before == BuildAll(parentId, done, config.overlap, ops, hash)
    ensures children == BuildAll(parentId, done + added, config.overlap, ops, hash)
  {
    hide BuildAll, BuildChild;
    children := before;
    assert done + added[..0] == done;
    for k := 0 to |added|
      invariant children == BuildAll(parentId, done + added[..k], config.overlap, ops, hash)
    {
      BuildSnoc(parentId, done + added[..k], added[k], config.overlap, ops, hash);
      assert done + added[..k + 1] == (done + added[..k]) + [added[k]];
      children := children + [BuildChild(parentId, children, added[k], config.overlap, ops, hash)];
    }
    assert added[..|added|] == added;
  }

  // What the drafts hold.

  function Refs(drafts: seq<Draft>): (r: seq<seq<string>>)
    ensures |r| == |drafts| && forall i :: 0 <= i < |drafts| ==> r[i] == drafts[i].refs
  {
    seq(|drafts|, i requires 0 <= i < |drafts| => drafts[i].refs)
  }

  /** Runs of one repeated singleton collapse to one; everything else is laid end to end. */
  function Collapse(rs: seq<seq<string>>): seq<string> {
    if rs == [] then []
    else
      var init, last := rs[..|rs| - 1], rs[|rs| - 1];
      if init != [] && init[|init| - 1] == last && |last| == 1 then Collapse(init) else Collapse(init) + last
  }

  lemma {:induction false} CollapseMember(rs: seq<seq<string>>, i: nat, x: string)
    requires i < |rs| && x in rs[i]
    ensures x in Collapse(rs)
  {
    var init, last := rs[..|rs| - 1], rs[|rs| - 1];
    if i < |init| {
      assert init[i] == rs[i];
      CollapseMember(init, i, x);
    } else if init != [] && init[|init| - 1] == last && |last| == 1 {
      CollapseMember(init, |init| - 1, x);
    }
  }

  lemma {:induction false} CollapseFresh(rs: seq<seq<string>>, r: seq<string>)
    requires r != [] && r[0] !in Collapse(rs)
    ensures Collapse(rs + [r]) == Collapse(rs) + r
  {
    assert (rs + [r])[..|rs|] == rs;
    if rs != [] && rs[|rs| - 1] == r {
      CollapseMember(rs, |rs| - 1, r[0]);
    }
  }

  /** One or more copies of `[x]` collapse to one `x`. */
  lemma {:induction false} CollapseCopies(rs: seq<seq<string>>, x: string, copies: seq<seq<string>>)
    requires copies != [] && (forall k :: 0 <= k < |copies| ==> copies[k] == [x]) && x !in Collapse(rs)
    ensures Collapse(rs + copies) == Collapse(rs) + [x]
  {
    var init := copies[..|copies| - 1];
    assert copies == init + [[x]];
    assert rs + copies == (rs + init) + [[x]];
    if init == [] {
      assert rs + init == rs;
      CollapseFresh(rs, [x]);
    } else {
      CollapseCopies(rs, x, init);
      var all := rs + copies;
      assert all[..|all| - 1] == rs + init;
      assert (rs + init)[|rs + init| - 1] == [x];
    }
  }

  lemma {:induction false} SettleCollapses(s: Scan, ids: seq<string>)
    requires Collapse(Refs(s.drafts)) + BlockIds(s.current) == ids && Distinct(ids)
    ensures Collapse(Refs(Settle(s).drafts)) == (if s.current == [] then Collapse(Refs(s.drafts)) else ids)
  {
    if s.current != [] {
      var d := CloseDraft(s.current);
      var c := Collapse(Refs(s.drafts));
      assert Refs(s.drafts + [d]) == Refs(s.drafts) + [d.refs];
      assert d.refs[0] !in c by {
        forall i | 0 <= i < |c|
          ensures c[i] != d.refs[0]
        {
          assert ids[i] == c[i] && ids[|c|] == d.refs[0];
        }
      }
      CollapseFresh(Refs(s.drafts), d.refs);
    }
  }

  lemma {:induction false} OversizedCollapses(drafts: seq<Draft>, b: ChunkBlock, max: nat, ops: TextOps)
    requires b.id !in Collapse(Refs(drafts))
    ensures Collapse(Refs(drafts + Oversized(b, max, ops))) == Collapse(Refs(drafts)) + [b.id]
  {
    var added := Oversized(b, max, ops);
    assert Refs(drafts + added) == Refs(drafts) + Refs(added);
    CollapseCopies(Refs(drafts), b.id, Refs(added));
  }

  lemma {:induction false} BlockIdsSnoc(bs: seq<ChunkBlock>, b: ChunkBlock)
    ensures BlockIds(bs + [b]) == BlockIds(bs) + [b.id]
  {
  }

  lemma {:induction false} DistinctSnoc(ids: seq<string>, x: string)
    requires Distinct(ids + [x])
    ensures Distinct(ids) && x !in ids
  {
    var all := ids + [x];
    forall i | 0 <= i < |ids|
      ensures ids[i] != x
    {
      assert all[i] == ids[i] && all[|ids|] == x;
    }
    forall i, j | 0 <= i < j < |ids|
      ensures ids[i] != ids[j]
    {
      assert all[i] == ids[i] && all[j] == ids[j];
    }
  }

  lemma {:induction false} BlockCollapses(s: Scan, ids: seq<string>, b: ChunkBlock, max: nat, ops: TextOps)
    requires Collapse(Refs(s.drafts)) + BlockIds(s.current) == ids && Distinct(ids) && b.id !in ids
    requires BlockTokens(s.current) <= max
    ensures var r := ScanBlock(s, b, max, ops);
            Collapse(Refs(r.drafts)) + BlockIds(r.current) == ids + [b.id] && BlockTokens(r.current) <= max
  {
    hide Oversized, CloseDraft, Collapse, Refs, BlockTokens, Distinct;
    var t := if BlockTokens(s.current) + b.tokens > max then Settle(s) else s;
    SettleCollapses(s, ids);
    assert BlockIds([]) == [];
    assert Collapse(Refs(t.drafts)) + BlockIds(t.current) == ids;
    BlockTokensSnoc(s.current, b);
    BlockTokensSnoc([], b);
    if b.tokens > max {
      assert t.current == [] && Collapse(Refs(t.drafts)) == ids;
      OversizedCollapses(t.drafts, b, max, ops);
      assert (ids + [b.id]) + [] == ids + [b.id];
    } else {
      BlockIdsSnoc(t.current, b);
      ConcatAssoc(Collapse(Refs(t.drafts)), BlockIds(t.current), [b.id]);
    }
  }

  lemma {:induction false} ScanCollapses(bs: seq<ChunkBlock>, max: nat, ops: TextOps)
    requires Distinct(BlockIds(bs))
    ensures var s := ScanAll(bs, max, ops);
            Collapse(Refs(s.drafts)) + BlockIds(s.current) == BlockIds(bs) && BlockTokens(s.current) <= max
  {
    if bs == [] {
      NothingScanned();
    } else {
      hide Collapse, Refs, ScanBlock, BlockIds;
      var init, b := bs[..|bs| - 1], bs[|bs| - 1];
      SnocConcat([], bs);
      BlockIdsSnoc(init, b);
      DistinctSnoc(BlockIds(init), b.id);
      ScanCollapses(init, max, ops);
      BlockCollapses(ScanAll(init, max, ops), BlockIds(init), b, max, ops);
    }
  }

  lemma {:induction false} NothingScanned()
    ensures Collapse(Refs([])) == [] && BlockIds([]) == []
  {
  }

  /** With the pieces of each oversized block collapsed, the references are the block list in order. */
  lemma {:induction false} DraftsCollapse(bs: seq<ChunkBlock>, max: nat, ops: TextOps)
    requires Distinct(BlockIds(bs))
    ensures Collapse(Refs(Drafts(bs, max, ops))) == BlockIds(bs)
  {
    var s := ScanAll(bs, max, ops);
    ScanCollapses(bs, max, ops);
    SettleCollapses(s, BlockIds(bs));
    if s.current == [] {
      assert BlockIds(s.current) == [];
    }
  }

  // Sizes.

  /** A draft of several blocks is within the limit; any other holds one block, and is within the
      limit too unless that block is oversized. */
  ghost predicate DraftOk(d: Draft, bs: seq<ChunkBlock>, max: nat) {
    d.tokens <= max || exists k :: 0 <= k < |bs| && bs[k].tokens > max && d.refs == [bs[k].id]
  }

  lemma {:induction false} DraftOkGrows(d: Draft, bs: seq<ChunkBlock>, b: ChunkBlock, max: nat)
    requires DraftOk(d, bs, max)
    ensures DraftOk(d, bs + [b], max)
  {
    if d.tokens > max {
      var k :| 0 <= k < |bs| && bs[k].tokens > max && d.refs == [bs[k].id];
      assert (bs + [b])[k] == bs[k];
    }
  }

  lemma {:induction false} ScanSizes(bs: seq<ChunkBlock>, max: nat, ops: TextOps)
    ensures var s := ScanAll(bs, max, ops);
            BlockTokens(s.current) <= max && forall i :: 0 <= i < |s.drafts| ==> DraftOk(s.drafts[i], bs, max)
  {
    if bs != [] {
      hide DraftOk, ScanBlock, BlockTokens;
      var init, b := bs[..|bs| - 1], bs[|bs| - 1];
      ScanSizes(init, max, ops);
      SnocConcat([], bs);
      BlockSizes(ScanAll(init, max, ops), init, b, max, ops);
    }
  }

  lemma {:induction false} BlockTokensSnoc(bs: seq<ChunkBlock>, b: ChunkBlock)
    ensures BlockTokens(bs + [b]) == BlockTokens(bs) + b.tokens && BlockTokens([]) == 0
  {
    assert (bs + [b])[..|bs|] == bs;
  }

  lemma {:induction false} BlockSizes(s: Scan, init: seq<ChunkBlock>, b: ChunkBlock, max: nat, ops: TextOps)
    requires BlockTokens(s.current) <= max && forall i :: 0 <= i < |s.drafts| ==> DraftOk(s.drafts[i], init, max)
    ensures var r := ScanBlock(s, b, max, ops);
            BlockTokens(r.current) <= max && forall i :: 0 <= i < |r.drafts| ==> DraftOk(r.drafts[i], init + [b], max)
  {
    hide Oversized, DraftOk, BlockTokens, CloseDraft;
    var r, bs := ScanBlock(s, b, max, ops), init + [b];
    BlockTokensSnoc(s.current, b);
    BlockTokensSnoc([], b);
    assert [] + [b] == [b];
    forall i | 0 <= i < |r.drafts|
      ensures DraftOk(r.drafts[i], bs, max)
    {
      if i < |s.drafts| {
        DraftOkGrows(s.drafts[i], init, b, max);
      } else if r.drafts[i] == CloseDraft(s.current) {
        SmallDraft(s.current, bs, max);
      } else {
        BigDraft(r.drafts[i], bs, |init|, max);
      }
    }
  }

  lemma {:induction false} SmallDraft(current: seq<ChunkBlock>, bs: seq<ChunkBlock>, max: nat)
    requires BlockTokens(current) <= max
    ensures DraftOk(CloseDraft(current), bs, max)
  {
  }

  lemma {:induction false} BigDraft(d: Draft, bs: seq<ChunkBlock>, k: nat, max: nat)
    requires k < |bs| && bs[k].tokens > max && d.refs == [bs[k].id]
    ensures DraftOk(d, bs, max)
  {
  }

  lemma {:induction false} DraftSizes(bs: seq<ChunkBlock>, max: nat, ops: TextOps)
    ensures forall i :: 0 <= i < |Drafts(bs, max, ops)| ==> DraftOk(Drafts(bs, max, ops)[i], bs, max)
  {
    ScanSizes(bs, max, ops);
    SmallDraft(ScanAll(bs, max, ops).current, bs, max);
  }

  // How often a block is referred to.

  /** One child per block, except that an oversized paragraph has one per piece. */
  function Copies(b: ChunkBlock, max: nat, ops: TextOps): nat {
    if b.tokens > max && !IsAtomic(b.kind) then |SplitParagraph(ChunkText(b), b.tokens, max, ops)| else 1
  }

  function Mentions(bs: seq<ChunkBlock>, max: nat, ops: TextOps): multiset<string> {
    if bs == [] then multiset{}
    else
      var m := Mentions(bs[..|bs| - 1], max, ops);
      var b := bs[|bs| - 1];
      m[b.id := m[b.id] + Copies(b, max, ops)]
  }

  function Mentioned(s: Scan): multiset<string> {
    multiset(Flatten(Refs(s.drafts))) + multiset(BlockIds(s.current))
  }

  lemma {:induction false} RefsAppend(a: seq<Draft>, b: seq<Draft>)
    ensures multiset(Flatten(Refs(a + b))) == multiset(Flatten(Refs(a))) + multiset(Flatten(Refs(b)))
  {
    assert Refs(a + b) == Refs(a) + Refs(b);
    FlattenAppend(Refs(a), Refs(b));
  }

  lemma {:induction false} RefsCopies(drafts: seq<Draft>, x: string)
    requires forall k :: 0 <= k < |drafts| ==> drafts[k].refs == [x]
    ensures multiset(Flatten(Refs(drafts))) == multiset{}[x := |drafts|]
  {
    if drafts != [] {
      var init, last := drafts[..|drafts| - 1], drafts[|drafts| - 1];
      SnocConcat([], drafts);
      RefsCopies(init, x);
      RefsAppend(init, [last]);
      assert Refs([last]) == [[x]] && Flatten([[x]]) == [x];
    }
  }

  lemma {:induction false} SettleMentions(s: Scan)
    ensures Mentioned(Settle(s)) == Mentioned(s)
  {
    if s.current != [] {
      var d := CloseDraft(s.current);
      RefsAppend(s.drafts, [d]);
      assert Refs([d]) == [d.refs] && Flatten([d.refs]) == d.refs;
      assert BlockIds([]) == [];
    } else {
      assert BlockIds(s.current) == [];
    }
  }

  lemma {:induction false} OversizedMentions(drafts: seq<Draft>, b: ChunkBlock, max: nat, ops: TextOps)
    requires b.tokens > max
    ensures var m := multiset(Flatten(Refs(drafts)));
            multiset(Flatten(Refs(drafts + Oversized(b, max, ops)))) == m[b.id := m[b.id] + Copies(b, max, ops)]
  {
    RefsAppend(drafts, Oversized(b, max, ops));
    RefsCopies(Oversized(b, max, ops), b.id);
  }

  lemma {:induction false} BlockMentions(s: Scan, b: ChunkBlock, max: nat, ops: TextOps)
    requires BlockTokens(s.current) <= max
    ensures Mentioned(ScanBlock(s, b, max, ops)) == Mentioned(s)[b.id := Mentioned(s)[b.id] + Copies(b, max, ops)]
  {
    hide Oversized, CloseDraft, Refs, Flatten;
    var t := if BlockTokens(s.current) + b.tokens > max then Settle(s) else s;
    SettleMentions(s);
    if b.tokens > max {
      OversizedMentions(t.drafts, b, max, ops);
      assert t.current == [] && BlockIds(t.current) == [];
    } else {
      BlockIdsSnoc(t.current, b);
    }
  }

  lemma {:induction false} ScanMentions(bs: seq<ChunkBlock>, max: nat, ops: TextOps)
    ensures Mentioned(ScanAll(bs, max, ops)) == Mentions(bs, max, ops)
  {
    if bs == [] {
      assert Flatten(Refs([])) == [] && BlockIds([]) == [];
    } else {
      hide Mentioned, ScanBlock, Copies;
      ScanMentions(bs[..|bs| - 1], max, ops);
      ScanSizes(bs[..|bs| - 1], max, ops);
      BlockMentions(ScanAll(bs[..|bs| - 1], max, ops), bs[|bs| - 1], max, ops);
    }
  }

  /** Each block is referred to by as many children as it has pieces; an atomic block, however
      large, by exactly one. */
  lemma {:induction false} DraftMentions(bs: seq<ChunkBlock>, max: nat, ops: TextOps)
    ensures multiset(Flatten(Refs(Drafts(bs, max, ops)))) == Mentions(bs, max, ops)
  {
    ScanMentions(bs, max, ops);
    var s := Settle(ScanAll(bs, max, ops));
    SettleMentions(ScanAll(bs, max, ops));
    assert s.current == [] && BlockIds(s.current) == [];
  }

  lemma {:induction false} MentionsOfDistinct(bs: seq<ChunkBlock>, max: nat, ops: TextOps, k: nat)
    requires Distinct(BlockIds(bs)) && k < |bs|
    ensures Mentions(bs, max, ops)[bs[k].id] == Copies(bs[k], max, ops)
    ensures forall x :: x in Mentions(bs, max, ops) ==> x in BlockIds(bs)
  {
    hide Copies;
    var init, b := bs[..|bs| - 1], bs[|bs| - 1];
    SnocConcat([], bs);
    BlockIdsSnoc(init, b);
    DistinctSnoc(BlockIds(init), b.id);
    MentionsWithin(init, max, ops);
    MentionsWithin(bs, max, ops);
    if k < |init| {
      MentionsOfDistinct(init, max, ops, k);
      assert BlockIds(init)[k] == bs[k].id;
    }
  }

  lemma {:induction false} MentionsWithin(bs: seq<ChunkBlock>, max: nat, ops: TextOps)
    ensures forall x :: x in Mentions(bs, max, ops) ==> x in BlockIds(bs)
  {
    if bs != [] {
      hide Copies;
      MentionsWithin(bs[..|bs| - 1], max, ops);
      SnocConcat([], bs);
      BlockIdsSnoc(bs[..|bs| - 1], bs[|bs| - 1]);
    }
  }
}
