/** What a child chunk says: the texts and tokens of the blocks it refers to, read off the block table. */
module ChildTexts {
  import opened Seqs
  import opened DocumentModel
  import opened ParentChunks
  import opened Paragraphs
  import opened ChildChunks
  import opened ChunkedDocument

  /** A paragraph over the child limit, which is cut at sentences. */
  predicate IsCut(id: string, blocks: Blocks, max: nat) {
    id in blocks && blocks[id].tokens > max && !IsAtomic(blocks[id].kind)
  }

  function SentencesOf(id: string, blocks: Blocks, ops: TextOps): (r: seq<string>)
    requires id in blocks
    ensures r != []
  {
    Sentences(if blocks[id].text.Some? then blocks[id].text.value else "", ops)
  }

  /** `pieces` cuts the sentences of the paragraph: all of them in order, and a piece of several sentences has
      a share of the tokens below the limit that its next sentence would bring to the limit or over it. */
  ghost predicate Cuts(pieces: seq<seq<string>>, id: string, blocks: Blocks, max: nat, ops: TextOps)
    requires id in blocks
  {
    var all := TotalChars(SentencesOf(id, blocks, ops));
    && Flatten(pieces) == SentencesOf(id, blocks, ops)
    && (forall j :: 0 <= j < |pieces| ==> pieces[j] != [] && Below(pieces[j], blocks[id].tokens, all, max))
    && AllReach(pieces, blocks[id].tokens, all, max)
  }

  /** One piece as text and tokens. */
  ghost predicate IsPiece(text: string, tokens: nat, piece: seq<string>, id: string, blocks: Blocks, ops: TextOps)
    requires id in blocks
  {
    && text == Join(" ", piece)
    && tokens == Share(blocks[id].tokens, Chars(piece), TotalChars(SentencesOf(id, blocks, ops)))
  }

  /** Text and tokens of a child that refers to `refs`, without its overlap. */
  ghost predicate Says(text: string, tokens: nat, refs: seq<string>, blocks: Blocks, max: nat, ops: TextOps) {
    && refs != [] && Known(refs, blocks)
    && if |refs| == 1 && IsCut(refs[0], blocks, max) then
         exists pieces, j :: 0 <= j < |pieces| && Cuts(pieces, refs[0], blocks, max, ops)
                             && IsPiece(text, tokens, pieces[j], refs[0], blocks, ops)
       else text == Join("\n", ChunkTexts(refs, blocks)) && tokens == Tokens(refs, blocks)
  }

  // The pieces of a paragraph.

  /** The next piece begins with a sentence that would bring this one to the limit. */
  predicate Reaches(piece: seq<string>, next: seq<string>, total: nat, all: nat, max: nat)
    requires all > 0
  {
    next != [] ==> Share(total, Chars(piece) + |next[0]|, all) >= max
  }

  predicate AllReach(pieces: seq<seq<string>>, total: nat, all: nat, max: nat)
    requires all > 0
  {
    forall j, k :: 0 <= j && k == j + 1 < |pieces| ==> Reaches(pieces[j], pieces[k], total, all, max)
  }

  lemma {:induction false} ReachSnoc(g: seq<seq<string>>, last: seq<string>, total: nat, all: nat, max: nat)
    requires all > 0
    ensures AllReach(g + [last], total, all, max) <==>
            AllReach(g, total, all, max) && (g != [] ==> Reaches(g[|g| - 1], last, total, all, max))
  {
    hide Reaches;
    var more := g + [last];
    assert forall j :: 0 <= j < |g| ==> more[j] == g[j];
    if AllReach(more, total, all, max) {
      forall j, k | 0 <= j && k == j + 1 < |g|
        ensures Reaches(g[j], g[k], total, all, max)
      {
        assert Reaches(more[j], more[k], total, all, max);
      }
      if g != [] {
        assert Reaches(more[|g| - 1], more[|g|], total, all, max);
      }
    }
  }

  lemma {:induction false} PiecesReach(sentences: seq<string>, total: nat, all: nat, max: nat)
    requires all > 0
    ensures AllReach(Pieces(sentences, total, all, max), total, all, max)
  {
    if sentences == [] {
      NoneReach(total, all, max);
    } else {
      hide Share, Chars, AllReach;
      var x, g := sentences[|sentences| - 1], Pieces(sentences[..|sentences| - 1], total, all, max);
      PiecesReach(sentences[..|sentences| - 1], total, all, max);
      if g != [] && Share(total, Chars(g[|g| - 1]) + |x|, all) < max {
        LastGrows(g, x, total, all, max);
      } else {
        ReachSnoc(g, [x], total, all, max);
      }
    }
  }

  lemma {:induction false} LastGrows(g: seq<seq<string>>, x: string, total: nat, all: nat, max: nat)
    requires all > 0 && g != [] && g[|g| - 1] != [] && AllReach(g, total, all, max)
    ensures AllReach(g[..|g| - 1] + [g[|g| - 1] + [x]], total, all, max)
  {
    hide AllReach, Share, Chars;
    var init, last := g[..|g| - 1], g[|g| - 1];
    assert g == init + [last];
    ReachSnoc(init, last, total, all, max);
    ReachSnoc(init, last + [x], total, all, max);
  }

  lemma {:induction false} NoneReach(total: nat, all: nat, max: nat)
    requires all > 0
    ensures AllReach([], total, all, max)
  {
  }

  lemma {:induction false} PiecesCut(id: string, blocks: Blocks, max: nat, ops: TextOps)
    requires id in blocks
    ensures var ss := SentencesOf(id, blocks, ops);
            Cuts(Pieces(ss, blocks[id].tokens, TotalChars(ss), max), id, blocks, max, ops)
  {
    hide Share, Chars, Sentences, TotalChars, AllReach;
    var ss := SentencesOf(id, blocks, ops);
    PiecesPartition(ss, blocks[id].tokens, TotalChars(ss), max);
    PiecesReach(ss, blocks[id].tokens, TotalChars(ss), max);
  }

  // Drafts against the block table.

  /** The blocks stand in the table under their ids. */
  predicate Tabled(bs: seq<ChunkBlock>, blocks: Blocks) {
    forall k :: 0 <= k < |bs| ==> bs[k].id in blocks && blocks[bs[k].id] == bs[k]
  }

  ghost predicate DraftSays(d: Draft, blocks: Blocks, max: nat, ops: TextOps) {
    Says(d.text, d.tokens, d.refs, blocks, max, ops)
  }

  lemma {:induction false} TabledTokens(bs: seq<ChunkBlock>, blocks: Blocks)
    requires Tabled(bs, blocks)
    ensures Known(BlockIds(bs), blocks) && Tokens(BlockIds(bs), blocks) == BlockTokens(bs)
  {
    if bs != [] {
      TabledTokens(bs[..|bs| - 1], blocks);
      assert BlockIds(bs)[..|bs| - 1] == BlockIds(bs[..|bs| - 1]);
    }
  }

  lemma {:induction false} TabledTexts(bs: seq<ChunkBlock>, blocks: Blocks)
    requires Tabled(bs, blocks)
    ensures Known(BlockIds(bs), blocks) && ChunkTexts(BlockIds(bs), blocks) == BlockTexts(bs)
  {
    assert forall k :: 0 <= k < |bs| ==> blocks[BlockIds(bs)[k]] == bs[k];
  }

  lemma {:induction false} ClosedSays(current: seq<ChunkBlock>, blocks: Blocks, max: nat, ops: TextOps)
    requires Tabled(current, blocks) && current != [] && BlockTokens(current) <= max
    ensures DraftSays(CloseDraft(current), blocks, max, ops)
  {
    TabledTokens(current, blocks);
    TabledTexts(current, blocks);
    if |current| == 1 {
      assert current[..0] == [];
      assert BlockTokens(current) == current[0].tokens;
    }
  }

  lemma {:induction false} OversizedSays(b: ChunkBlock, blocks: Blocks, max: nat, ops: TextOps, k: nat)
    requires Tabled([b], blocks) && b.tokens > max && k < |Oversized(b, max, ops)|
    ensures DraftSays(Oversized(b, max, ops)[k], blocks, max, ops)
  {
    assert [b][0] == b && blocks[b.id] == b;
    if IsAtomic(b.kind) {
      AtomicSays(b, blocks);
    } else {
      hide Cuts, Pieces, Share, Sentences, TotalChars, Oversized, IsPiece, Tokens, Join;
      OwnPieces(b, blocks, max, ops);
    }
  }

  lemma {:induction false} OwnPieces(b: ChunkBlock, blocks: Blocks, max: nat, ops: TextOps)
    requires b.id in blocks && blocks[b.id] == b && IsCut(b.id, blocks, max)
    ensures var ss, own := SentencesOf(b.id, blocks, ops), Oversized(b, max, ops);
            var pieces := Pieces(ss, b.tokens, TotalChars(ss), max);
            && Cuts(pieces, b.id, blocks, max, ops) && |own| == |pieces|
            && forall j :: 0 <= j < |pieces| ==>
                 own[j].refs == [b.id] && IsPiece(own[j].text, own[j].tokens, pieces[j], b.id, blocks, ops)
  {
    PiecesCut(b.id, blocks, max, ops);
    hide Cuts, Pieces, Share, Sentences, TotalChars, Chars, Join;
  }

  lemma {:induction false} AtomicSays(b: ChunkBlock, blocks: Blocks)
    requires b.id in blocks && blocks[b.id] == b
    ensures Tokens([b.id], blocks) == b.tokens && Join("\n", ChunkTexts([b.id], blocks)) == ChunkText(b)
  {
    assert [b.id][..0] == [];
    assert ChunkTexts([b.id], blocks) == [ChunkText(b)];
  }

  ghost predicate AllSay(drafts: seq<Draft>, blocks: Blocks, max: nat, ops: TextOps) {
    forall i :: 0 <= i < |drafts| ==> DraftSays(drafts[i], blocks, max, ops)
  }

  lemma {:induction false} BlockSays(s: Scan, b: ChunkBlock, blocks: Blocks, max: nat, ops: TextOps)
    requires Tabled([b], blocks) && Tabled(s.current, blocks) && BlockTokens(s.current) <= max
    requires AllSay(s.drafts, blocks, max, ops)
    ensures var r := ScanBlock(s, b, max, ops);
            AllSay(r.drafts, blocks, max, ops) && Tabled(r.current, blocks)
  {
    hide Oversized, CloseDraft, DraftSays, BlockTokens;
    assert [b][0] == b;
    if s.current != [] {
      ClosedSays(s.current, blocks, max, ops);
    }
    if b.tokens > max {
      forall k | 0 <= k < |Oversized(b, max, ops)|
        ensures DraftSays(Oversized(b, max, ops)[k], blocks, max, ops)
      {
        OversizedSays(b, blocks, max, ops, k);
      }
    }
  }

  lemma {:induction false} TabledInit(bs: seq<ChunkBlock>, blocks: Blocks)
    requires Tabled(bs, blocks) && bs != []
    ensures Tabled(bs[..|bs| - 1], blocks) && Tabled([bs[|bs| - 1]], blocks)
  {
  }

  lemma {:induction false} ScanSays(bs: seq<ChunkBlock>, blocks: Blocks, max: nat, ops: TextOps)
    requires Tabled(bs, blocks)
    ensures AllSay(ScanAll(bs, max, ops).drafts, blocks, max, ops) && Tabled(ScanAll(bs, max, ops).current, blocks)
  {
    if bs != [] {
      hide ScanBlock, AllSay, Tabled, BlockTokens, DraftOk;
      var init, b := bs[..|bs| - 1], bs[|bs| - 1];
      TabledInit(bs, blocks);
      ScanSays(init, blocks, max, ops);
      ScanSizes(init, max, ops);
      BlockSays(ScanAll(init, max, ops), b, blocks, max, ops);
    }
  }

  lemma {:induction false} DraftsSay(bs: seq<ChunkBlock>, blocks: Blocks, max: nat, ops: TextOps)
    requires Tabled(bs, blocks)
    ensures AllSay(Drafts(bs, max, ops), blocks, max, ops)
  {
    ScanSays(bs, blocks, max, ops);
    ScanSizes(bs, max, ops);
    var s := ScanAll(bs, max, ops);
    hide ScanAll, DraftSays, CloseDraft;
    if s.current != [] {
      ClosedSays(s.current, blocks, max, ops);
    }
  }

  // No child could have taken in the next block.

  /** The blocks of draft `d` fit, but not together with a block of `more` tokens. */
  predicate Full(d: Draft, more: nat, blocks: Blocks, max: nat) {
    d.refs != [] && Known(d.refs, blocks) && (Tokens(d.refs, blocks) <= max ==> Tokens(d.refs, blocks) + more > max)
  }

  predicate FullThrough(drafts: seq<Draft>, blocks: Blocks, max: nat) {
    && (forall i :: 0 <= i < |drafts| ==> drafts[i].refs != [] && Known(drafts[i].refs, blocks))
    && (forall i, j :: 0 <= i && j == i + 1 < |drafts| ==>
          Full(drafts[i], blocks[drafts[j].refs[0]].tokens, blocks, max))
  }

  /** The last draft is full for the current run, or over the limit itself. */
  predicate FullNow(s: Scan, blocks: Blocks, max: nat) {
    && FullThrough(s.drafts, blocks, max)
    && (s.drafts != [] ==>
          Full(s.drafts[|s.drafts| - 1], if s.current == [] then 0 else s.current[0].tokens, blocks, max))
  }

  lemma {:induction false} FullSnoc(drafts: seq<Draft>, d: Draft, blocks: Blocks, max: nat)
    requires FullThrough(drafts, blocks, max) && d.refs != [] && Known(d.refs, blocks)
    requires drafts != [] ==> Full(drafts[|drafts| - 1], blocks[d.refs[0]].tokens, blocks, max)
    ensures FullThrough(drafts + [d], blocks, max)
  {
    hide Full;
    var all := drafts + [d];
    assert forall i :: 0 <= i < |drafts| ==> all[i] == drafts[i];
  }

  lemma {:induction false} FullCopies(drafts: seq<Draft>, added: seq<Draft>, id: string, blocks: Blocks, max: nat,
                                      more: nat)
    requires FullThrough(drafts, blocks, max) && IsOver(id, blocks, max)
    requires drafts != [] ==> Full(drafts[|drafts| - 1], blocks[id].tokens, blocks, max)
    requires forall k :: 0 <= k < |added| ==> added[k].refs == [id]
    ensures FullThrough(drafts + added, blocks, max)
    ensures added != [] ==> Full(added[|added| - 1], more, blocks, max)
  {
    if added == [] {
      assert drafts + added == drafts;
    } else {
      OverTokens(id, blocks, max);
      var init, d := added[..|added| - 1], added[|added| - 1];
      FullCopies(drafts, init, id, blocks, max, blocks[id].tokens);
      assert drafts + added == (drafts + init) + [d];
      var before := drafts + init;
      assert before != [] ==> before[|before| - 1] == if init == [] then drafts[|drafts| - 1] else init[|init| - 1];
      FullSnoc(before, d, blocks, max);
    }
  }

  predicate IsOver(id: string, blocks: Blocks, max: nat) {
    id in blocks && blocks[id].tokens > max
  }

  lemma {:induction false} OverTokens(id: string, blocks: Blocks, max: nat)
    requires IsOver(id, blocks, max)
    ensures Known([id], blocks) && Tokens([id], blocks) == blocks[id].tokens
  {
    assert [id][..0] == [];
  }

  lemma {:induction false} CloseFull(s: Scan, blocks: Blocks, max: nat, more: nat)
    requires FullNow(s, blocks, max) && Tabled(s.current, blocks) && s.current != []
    requires BlockTokens(s.current) + more > max
    ensures FullThrough(s.drafts + [CloseDraft(s.current)], blocks, max)
    ensures Full(CloseDraft(s.current), more, blocks, max)
  {
    TabledTokens(s.current, blocks);
    var d := CloseDraft(s.current);
    assert d.refs[0] == s.current[0].id && blocks[d.refs[0]] == s.current[0];
    hide Full;
    FullSnoc(s.drafts, d, blocks, max);
  }

  lemma {:induction false} FullMore(d: Draft, a: nat, b: nat, blocks: Blocks, max: nat)
    requires Full(d, a, blocks, max) && a <= b
    ensures Full(d, b, blocks, max)
  {
  }

  lemma {:induction false} BlockFull(s: Scan, b: ChunkBlock, blocks: Blocks, max: nat, ops: TextOps)
    requires FullNow(s, blocks, max) && Tabled(s.current, blocks) && Tabled([b], blocks)
    requires BlockTokens(s.current) <= max
    ensures FullNow(ScanBlock(s, b, max, ops), blocks, max)
  {
    hide Oversized, CloseDraft, Full, FullThrough, BlockTokens;
    assert [b][0] == b;
    var t := if BlockTokens(s.current) + b.tokens > max then Settle(s) else s;
    NoTokens();
    if s.current != [] && BlockTokens(s.current) + b.tokens > max {
      CloseFull(s, blocks, max, b.tokens);
    }
    if t.current == [] && t.drafts != [] && s.current == [] {
      FullMore(t.drafts[|t.drafts| - 1], 0, b.tokens, blocks, max);
    }
    if b.tokens > max {
      FullCopies(t.drafts, Oversized(b, max, ops), b.id, blocks, max, 0);
    }
  }

  lemma {:induction false} NoTokens()
    ensures BlockTokens([]) == 0
  {
  }

  lemma {:induction false} ScanFull(bs: seq<ChunkBlock>, blocks: Blocks, max: nat, ops: TextOps)
    requires Tabled(bs, blocks)
    ensures FullNow(ScanAll(bs, max, ops), blocks, max)
  {
    if bs != [] {
      hide ScanBlock, FullNow, BlockTokens, Tabled, AllSay, DraftOk;
      var init, b := bs[..|bs| - 1], bs[|bs| - 1];
      TabledInit(bs, blocks);
      ScanFull(init, blocks, max, ops);
      ScanSays(init, blocks, max, ops);
      ScanSizes(init, max, ops);
      BlockFull(ScanAll(init, max, ops), b, blocks, max, ops);
    }
  }

  lemma {:induction false} DraftsFull(bs: seq<ChunkBlock>, blocks: Blocks, max: nat, ops: TextOps)
    requires Tabled(bs, blocks)
    ensures FullThrough(Drafts(bs, max, ops), blocks, max)
  {
    ScanFull(bs, blocks, max, ops);
    ScanSays(bs, blocks, max, ops);
    ScanSizes(bs, max, ops);
    var s := ScanAll(bs, max, ops);
    hide ScanAll, CloseDraft, AllSay, Full, FullThrough;
    if s.current != [] {
      CloseFull(s, blocks, max, max + 1);
    }
  }

  // The children.

  lemma {:induction false} LookupTabled(ids: seq<string>, blocks: Blocks)
    requires Keyed(blocks)
    ensures Tabled(Lookup(ids, blocks), blocks)
  {
    if ids != [] {
      LookupTabled(ids[..|ids| - 1], blocks);
    }
  }

  /** `tail` is what a child repeats of the text before it: its last `n` words, or, when it has fewer, its last
      `n` characters. */
  ghost predicate IsTail(tail: string, text: string, n: nat, ops: TextOps) {
    if text == "" || n == 0 then tail == ""
    else if |ops.words(text)| >= n then
      exists front, last :: ops.words(text) == front + last && |last| == n && tail == Join(" ", last)
    else
      exists front :: text == front + tail && |tail| == Min(n, |text|)
  }

  lemma {:induction false} TailMeaning(text: string, n: nat, ops: TextOps)
    ensures IsTail(OverlapSuffix(text, n, ops), text, n, ops)
  {
    if text != "" && n != 0 {
      var words := ops.words(text);
      if |words| >= n {
        var k := |words| - n;
        assert words == words[..k] + words[k..] && |words[k..]| == n;
      } else {
        var k := Max(|text| - n, 0);
        assert text == text[..k] + text[k..] && |text[k..]| == Min(n, |text|);
      }
    }
  }

  lemma {:induction false} NoTail(text: string, ops: TextOps)
    ensures IsTail("", text, 0, ops)
  {
  }

  /** Child `i` repeats the tail of the child before it, if there is one and it is not empty, counts it with the
      overlap, and then says its own text. */
  ghost predicate Behind(cs: seq<ChildChunk>, i: nat, text: string, tokens: nat, overlap: nat, ops: TextOps)
    requires i < |cs|
  {
    if i == 0 then cs[i].text == text && cs[i].tokens == tokens
    else
      exists tail :: IsTail(tail, cs[i - 1].text, overlap, ops)
        && cs[i].text == (if tail == "" then text else tail + " " + text)
        && cs[i].tokens == (if tail == "" then tokens else tokens + overlap)
  }

  lemma {:induction false} OneBehind(parentId: string, before: seq<ChildChunk>, d: Draft, overlap: nat, ops: TextOps,
                                     hash: Hash)
    ensures Behind(before + [BuildChild(parentId, before, d, overlap, ops, hash)], |before|, d.text, d.tokens, overlap,
                   ops)
  {
    var cs := before + [BuildChild(parentId, before, d, overlap, ops, hash)];
    if before != [] {
      var was := before[|before| - 1].text;
      assert cs[|before| - 1].text == was;
      TailMeaning(was, overlap, ops);
      NoTail(was, ops);
      hide IsTail, OverlapSuffix;
      assert IsTail(Prefix(before, overlap, ops), was, overlap, ops);
    }
  }

  lemma {:induction false} BehindPrefix(a: seq<ChildChunk>, b: seq<ChildChunk>, i: nat, text: string, tokens: nat,
                                        overlap: nat, ops: TextOps)
    requires i < |a| && a <= b && Behind(a, i, text, tokens, overlap, ops)
    ensures Behind(b, i, text, tokens, overlap, ops)
  {
    hide IsTail;
    assert b[i] == a[i] && (i > 0 ==> b[i - 1] == a[i - 1]);
  }

  lemma {:induction false} BuiltBehind(parentId: string, drafts: seq<Draft>, overlap: nat, ops: TextOps, hash: Hash,
                                       i: nat)
    requires i < |drafts|
    ensures Behind(BuildAll(parentId, drafts, overlap, ops, hash), i, drafts[i].text, drafts[i].tokens, overlap, ops)
  {
    hide *;
    BuiltAt(parentId, drafts, overlap, ops, hash, i);
    var cs, d := BuildAll(parentId, drafts, overlap, ops, hash), drafts[i];
    OneBehind(parentId, cs[..i], d, overlap, ops, hash);
    TakeSnoc(cs, i);
    BehindPrefix(cs[..i] + [cs[i]], cs, i, d.text, d.tokens, overlap, ops);
  }

  lemma {:induction false} TakeSnoc<T>(s: seq<T>, i: nat)
    requires i < |s|
    ensures s[..i] + [s[i]] <= s && |s[..i]| == i
  {
  }

  lemma {:induction false} BuiltFields(parentId: string, drafts: seq<Draft>, overlap: nat, ops: TextOps, hash: Hash,
                                       i: nat)
    requires i < |drafts|
    ensures var cs := BuildAll(parentId, drafts, overlap, ops, hash);
            && cs[i].refs == drafts[i].refs && cs[i].parentId == parentId
            && cs[i].normalized == ops.normalize(cs[i].text) && cs[i].textHash == ops.textHash(cs[i].normalized)
  {
    BuiltAt(parentId, drafts, overlap, ops, hash, i);
    hide BuildAll;
  }

  /** Every child of every parent, over the block table alone: behind its overlap it says the texts of the
      blocks it refers to, line by line, with the sum of their tokens; or, of a paragraph over the limit, one
      piece of its sentences with its share of the tokens. Its hash is that of its normalised text. */
  lemma {:induction false} ChildSays(p: ParentChunk, blocks: Blocks, config: Config, ops: TextOps, hash: Hash, i: nat)
    returns (text: string, tokens: nat)
    requires Keyed(blocks) && i < |ChildrenOfParent(p, blocks, config, ops, hash)|
    ensures var cs := ChildrenOfParent(p, blocks, config, ops, hash);
            && Says(text, tokens, cs[i].refs, blocks, config.childMax, ops)
            && Behind(cs, i, text, tokens, config.overlap, ops)
            && cs[i].parentId == p.parentId
            && cs[i].normalized == ops.normalize(cs[i].text) && cs[i].textHash == ops.textHash(cs[i].normalized)
  {
    hide Says, Behind, Drafts, BuildAll, Lookup;
    var bs := Lookup(p.blockIds, blocks);
    LookupTabled(p.blockIds, blocks);
    DraftsSay(bs, blocks, config.childMax, ops);
    var drafts := Drafts(bs, config.childMax, ops);
    BuiltBehind(p.parentId, drafts, config.overlap, ops, hash, i);
    BuiltFields(p.parentId, drafts, config.overlap, ops, hash, i);
    text, tokens := drafts[i].text, drafts[i].tokens;
  }

  // The pieces of one paragraph stand in a row.

  lemma {:induction false} ScanGrows(bs: seq<ChunkBlock>, n: nat, max: nat, ops: TextOps)
    requires n <= |bs|
    ensures ScanAll(bs[..n], max, ops).drafts <= ScanAll(bs, max, ops).drafts
  {
    if n == |bs| {
      assert bs[..n] == bs;
    } else {
      hide Oversized, CloseDraft, BlockTokens;
      var init := bs[..|bs| - 1];
      assert init[..n] == bs[..n];
      ScanGrows(init, n, max, ops);
    }
  }

  lemma {:induction false} CutDrafts(bs: seq<ChunkBlock>, k: nat, max: nat, ops: TextOps) returns (start: nat)
    requires k < |bs| && bs[k].tokens > max
    ensures var drafts, own := Drafts(bs, max, ops), Oversized(bs[k], max, ops);
            start + |own| <= |drafts| && drafts[start..start + |own|] == own
  {
    hide Oversized, CloseDraft, BlockTokens;
    var before := ScanAll(bs[..k], max, ops);
    var t := if BlockTokens(before.current) + bs[k].tokens > max then Settle(before) else before;
    assert bs[..k + 1][..k] == bs[..k];
    start := |t.drafts|;
    assert ScanAll(bs[..k + 1], max, ops).drafts == t.drafts + Oversized(bs[k], max, ops);
    ScanGrows(bs, k + 1, max, ops);
    var own, drafts := Oversized(bs[k], max, ops), Drafts(bs, max, ops);
    assert t.drafts + own <= drafts;
    assert (t.drafts + own)[start..start + |own|] == own;
  }

  lemma {:induction false} LookupHas(ids: seq<string>, blocks: Blocks, id: string) returns (k: nat)
    requires id in ids && id in blocks
    ensures k < |Lookup(ids, blocks)| && Lookup(ids, blocks)[k] == blocks[id]
  {
    var init, last := ids[..|ids| - 1], ids[|ids| - 1];
    if last == id {
      k := |Lookup(init, blocks)|;
    } else {
      assert id in init;
      k := LookupHas(init, blocks, id);
    }
  }

  /** Child `start + j` refers to the paragraph alone and says its piece `j`. */
  ghost predicate SaysNth(cs: seq<ChildChunk>, start: nat, j: nat, pieces: seq<seq<string>>, id: string, blocks: Blocks,
                          overlap: nat, ops: TextOps)
    requires j < |pieces| && id in blocks
  {
    && start + j < |cs| && cs[start + j].refs == [id]
    && exists text, tokens ::
         IsPiece(text, tokens, pieces[j], id, blocks, ops) && Behind(cs, start + j, text, tokens, overlap, ops)
  }

  /** The sentences of a paragraph over the limit come out whole and in order: its pieces cut them, and one
      child after the other says one piece after the other. */
  lemma {:induction false} CutInRow(p: ParentChunk, blocks: Blocks, config: Config, ops: TextOps, hash: Hash,
                                    id: string)
    returns (pieces: seq<seq<string>>, start: nat)
    requires Keyed(blocks) && id in p.blockIds && IsCut(id, blocks, config.childMax)
    ensures Cuts(pieces, id, blocks, config.childMax, ops)
    ensures var cs := ChildrenOfParent(p, blocks, config, ops, hash);
            forall j :: 0 <= j < |pieces| ==> SaysNth(cs, start, j, pieces, id, blocks, config.overlap, ops)
  {
    hide Drafts, BuildAll, Cuts, Lookup, Behind, Pieces, Oversized, IsPiece, SentencesOf, TotalChars;
    var max := config.childMax;
    var bs := Lookup(p.blockIds, blocks);
    var k := LookupHas(p.blockIds, blocks, id);
    LookupTabled(p.blockIds, blocks);
    start := CutDrafts(bs, k, max, ops);
    OwnPieces(bs[k], blocks, max, ops);
    var ss := SentencesOf(id, blocks, ops);
    pieces := Pieces(ss, blocks[id].tokens, TotalChars(ss), max);
    var drafts, own := Drafts(bs, max, ops), Oversized(bs[k], max, ops);
    forall j | 0 <= j < |pieces|
      ensures var cs := ChildrenOfParent(p, blocks, config, ops, hash);
              SaysNth(cs, start, j, pieces, id, blocks, config.overlap, ops)
    {
      assert drafts[start + j] == drafts[start..start + |own|][j] == own[j];
      assert IsPiece(own[j].text, own[j].tokens, pieces[j], id, blocks, ops);
      BuiltBehind(p.parentId, drafts, config.overlap, ops, hash, start + j);
      BuiltFields(p.parentId, drafts, config.overlap, ops, hash, start + j);
    }
  }

  /** Children are packed: unless its block is over the limit, no child could have taken in the first block of
      the next one. */
  lemma {:induction false} ChildrenArePacked(p: ParentChunk, blocks: Blocks, config: Config, ops: TextOps, hash: Hash)
    requires Keyed(blocks)
    ensures var cs := ChildrenOfParent(p, blocks, config, ops, hash);
            && (forall i :: 0 <= i < |cs| ==> cs[i].refs != [] && Known(cs[i].refs, blocks))
            && forall i, j :: 0 <= i && j == i + 1 < |cs| && Tokens(cs[i].refs, blocks) <= config.childMax ==>
                 Tokens(cs[i].refs, blocks) + blocks[cs[j].refs[0]].tokens > config.childMax
  {
    hide Drafts, BuildAll, Lookup;
    var bs := Lookup(p.blockIds, blocks);
    LookupTabled(p.blockIds, blocks);
    DraftsFull(bs, blocks, config.childMax, ops);
    var drafts := Drafts(bs, config.childMax, ops);
    var cs := ChildrenOfParent(p, blocks, config, ops, hash);
    BuiltRefs(p.parentId, drafts, config.overlap, ops, hash);
    forall i | 0 <= i < |cs|
      ensures cs[i].refs == drafts[i].refs
    {
      assert ChildRefs(cs)[i] == Refs(drafts)[i];
    }
    hide Tokens;
    forall i, j | 0 <= i && j == i + 1 < |cs| && Tokens(cs[i].refs, blocks) <= config.childMax
      ensures Tokens(cs[i].refs, blocks) + blocks[cs[j].refs[0]].tokens > config.childMax
    {
      assert Full(drafts[i], blocks[drafts[j].refs[0]].tokens, blocks, config.childMax);
    }
  }
}
