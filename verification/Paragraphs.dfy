/** Splitting one large paragraph at sentence boundaries, tokens shared out by character count. */
module Paragraphs {
  import opened Seqs

  /** The text functions taken as given: sentence boundaries, whitespace, words, normalisation and
      the hash of normalised text. */
  datatype TextOps = TextOps(
    boundaries: string -> seq<string>, space: char -> bool, words: string -> seq<string>,
    normalize: string -> string, textHash: string -> string)

  /** Python's `round` of the rational n/d: to nearest, ties to even. */
  function RoundHalfEven(n: nat, d: nat): (r: nat)
    requires d > 0
  {
    var q, rest := n / d, n % d;
    if 2 * rest < d then q else if 2 * rest > d then q + 1 else if q % 2 == 0 then q else q + 1
  }

  /** The result is the nearest integer, and at an exact half the even one. */
  lemma {:induction false} RoundMeaning(n: nat, d: nat)
    requires d > 0
    ensures var r := RoundHalfEven(n, d);
            && 0 - d <= 2 * (d * r - n) <= d
            && ((2 * (d * r - n) == d || 2 * (d * r - n) == 0 - d) ==> r % 2 == 0)
  {
    var q, rest := n / d, n % d;
    assert n == d * q + rest;
    assert d * (q + 1) == d * q + d;
    assert d * q - n == -rest && d * (q + 1) - n == d - rest;
  }

  predicate Blank(s: string, ops: TextOps) {
    forall i :: 0 <= i < |s| ==> ops.space(s[i])
  }

  function NonBlank(parts: seq<string>, ops: TextOps): (r: seq<string>)
    ensures forall i :: 0 <= i < |r| ==> |r[i]| > 0
  {
    if parts == [] then []
    else NonBlank(parts[..|parts| - 1], ops) + (if Blank(parts[|parts| - 1], ops) then [] else [parts[|parts| - 1]])
  }

  /** The non-blank sentences, or the whole text when there are none. */
  function Sentences(text: string, ops: TextOps): (r: seq<string>)
    ensures r != []
  {
    var found := NonBlank(ops.boundaries(text), ops);
    if found == [] then [text] else found
  }

  function Chars(parts: seq<string>): nat {
    if parts == [] then 0 else Chars(parts[..|parts| - 1]) + |parts[|parts| - 1]|
  }

  lemma {:induction false} CharsConcat(a: seq<string>, b: seq<string>)
    ensures Chars(a + b) == Chars(a) + Chars(b)
  {
    if b == [] {
      assert a + b == a;
    } else {
      assert (a + b)[..|a + b| - 1] == a + b[..|b| - 1];
      CharsConcat(a, b[..|b| - 1]);
    }
  }

  /** `sum(len(s)) or 1`. */
  function TotalChars(sentences: seq<string>): (r: nat)
    ensures r > 0
  {
    if Chars(sentences) == 0 then 1 else Chars(sentences)
  }

  /** The share of `total` tokens that `chars` of `all` characters get. */
  function Share(total: nat, chars: nat, all: nat): nat
    requires all > 0
  {
    RoundHalfEven(total * chars, all)
  }

  /** Sentence groups: the last one grows until the next sentence would bring its share to `max`. */
  function Pieces(sentences: seq<string>, total: nat, all: nat, max: nat): (r: seq<seq<string>>)
    requires all > 0
    ensures sentences != [] ==> r != []
    ensures forall k :: 0 <= k < |r| ==> r[k] != []
  {
    if sentences == [] then []
    else
      var x := sentences[|sentences| - 1];
      var g := Pieces(sentences[..|sentences| - 1], total, all, max);
      if g != [] && Share(total, Chars(g[|g| - 1]) + |x|, all) < max
      then g[..|g| - 1] + [g[|g| - 1] + [x]]
      else g + [[x]]
  }

  lemma {:induction false} PiecesStep(sentences: seq<string>, total: nat, all: nat, max: nat)
    requires all > 0 && sentences != []
    ensures var g, r := Pieces(sentences[..|sentences| - 1], total, all, max), Pieces(sentences, total, all, max);
            var x := sentences[|sentences| - 1];
            r == g + [[x]] || (g != [] && r == g[..|g| - 1] + [g[|g| - 1] + [x]])
  {
  }

  lemma {:induction false} PiecesNext(sentences: seq<string>, i: nat, total: nat, all: nat, max: nat,
                                      groups: seq<seq<string>>, current: seq<string>)
    requires all > 0 && 0 < i < |sentences| && groups + [current] == Pieces(sentences[..i], total, all, max)
    ensures Pieces(sentences[..i + 1], total, all, max)
            == if Share(total, Chars(current) + |sentences[i]|, all) < max then groups + [current + [sentences[i]]]
               else (groups + [current]) + [[sentences[i]]]
  {
    hide Share, Chars;
    var g := groups + [current];
    assert sentences[..i + 1][..i] == sentences[..i];
    assert g[..|g| - 1] == groups;
  }

  lemma {:induction false} FirstPiece(sentences: seq<string>, total: nat, all: nat, max: nat)
    requires all > 0 && sentences != []
    ensures Pieces(sentences[..1], total, all, max) == [[sentences[0]]]
  {
    assert sentences[..1][..0] == [];
  }

  lemma {:induction false} CharsSnoc(s: seq<string>, x: string)
    ensures Chars(s + [x]) == Chars(s) + |x|
    ensures Chars([]) == 0 && Chars([x]) == |x|
  {
    assert [x][..0] == [];
    assert Chars([x]) == Chars([x][..0]) + |x|;
    assert (s + [x])[..|s|] == s;
  }

  lemma {:induction false} PiecesInOrder(sentences: seq<string>, total: nat, all: nat, max: nat)
    requires all > 0
    ensures Flatten(Pieces(sentences, total, all, max)) == sentences
  {
    if sentences != [] {
      hide *;
      var init, x := sentences[..|sentences| - 1], sentences[|sentences| - 1];
      PiecesInOrder(init, total, all, max);
      PiecesStep(sentences, total, all, max);
      SnocConcat([], sentences);
      var g := Pieces(init, total, all, max);
      if g != [] {
        FlattenGrow(g, x);
      }
      FlattenSnoc(g, [x]);
    }
  }

  predicate Below(piece: seq<string>, total: nat, all: nat, max: nat)
    requires all > 0
  {
    |piece| >= 2 ==> Share(total, Chars(piece), all) < max
  }

  lemma {:induction false} PiecesBelow(sentences: seq<string>, total: nat, all: nat, max: nat)
    requires all > 0
    ensures forall k :: 0 <= k < |Pieces(sentences, total, all, max)| ==>
              Below(Pieces(sentences, total, all, max)[k], total, all, max)
  {
    if sentences != [] {
      hide Share;
      var init, x := sentences[..|sentences| - 1], sentences[|sentences| - 1];
      PiecesBelow(init, total, all, max);
      var g, r := Pieces(init, total, all, max), Pieces(sentences, total, all, max);
      forall k | 0 <= k < |r|
        ensures Below(r[k], total, all, max)
      {
        if k < |g| && r[k] == g[k] {
          assert Below(g[k], total, all, max);
        } else if |r[k]| >= 2 {
          var last := g[|g| - 1];
          assert r[k] == last + [x] && r[k][..|last|] == last;
        }
      }
    }
  }

  /** The pieces partition the sentences in order, and one of two or more sentences stays below `max`. */
  lemma {:induction false} PiecesPartition(sentences: seq<string>, total: nat, all: nat, max: nat)
    requires all > 0
    ensures Flatten(Pieces(sentences, total, all, max)) == sentences
    ensures forall k :: 0 <= k < |Pieces(sentences, total, all, max)| ==>
              Below(Pieces(sentences, total, all, max)[k], total, all, max)
  {
    PiecesInOrder(sentences, total, all, max);
    PiecesBelow(sentences, total, all, max);
  }

  /** A piece as returned: its sentences joined by blanks, and its share of the tokens. */
  function Estimates(pieces: seq<seq<string>>, total: nat, all: nat): (r: seq<(string, nat)>)
    requires all > 0
    ensures |r| == |pieces|
    ensures forall k :: 0 <= k < |r| ==> r[k] == (Join(" ", pieces[k]), Share(total, Chars(pieces[k]), all))
  {
    seq(|pieces|, k requires 0 <= k < |pieces| => (Join(" ", pieces[k]), Share(total, Chars(pieces[k]), all)))
  }

  function Sum(parts: seq<(string, nat)>): nat {
    if parts == [] then 0 else Sum(parts[..|parts| - 1]) + parts[|parts| - 1].1
  }

  function SplitParagraph(text: string, total: nat, max: nat, ops: TextOps): (r: seq<(string, nat)>)
    ensures r != []
  {
    var sentences := Sentences(text, ops);
    Estimates(Pieces(sentences, total, TotalChars(sentences), max), total, TotalChars(sentences))
  }

  lemma {:induction false} SumSnoc(pieces: seq<seq<string>>, total: nat, all: nat)
    requires all > 0 && pieces != []
    ensures Sum(Estimates(pieces, total, all)) ==
            Sum(Estimates(pieces[..|pieces| - 1], total, all)) + Share(total, Chars(pieces[|pieces| - 1]), all)
  {
    hide Share, Chars;
    assert Estimates(pieces, total, all)[..|pieces| - 1] == Estimates(pieces[..|pieces| - 1], total, all);
  }

  lemma {:induction false} EstimateError(pieces: seq<seq<string>>, total: nat, all: nat)
    requires all > 0
    ensures -(|pieces| * all)
            <= 2 * (all * Sum(Estimates(pieces, total, all)) - total * Chars(Flatten(pieces)))
            <= |pieces| * all
  {
    if pieces == [] {
      assert total * 0 == 0;
    } else {
      var init, last := pieces[..|pieces| - 1], pieces[|pieces| - 1];
      RoundMeaning(total * Chars(last), all);
      SumSnoc(pieces, total, all);
      hide Estimates, Sum, Chars, Flatten, RoundHalfEven;
      EstimateError(init, total, all);
      assert pieces == init + [last];
      FlattenSnoc(init, last);
      CharsConcat(Flatten(init), last);
      ErrorStep(all, Sum(Estimates(init, total, all)), Share(total, Chars(last), all), total, Chars(Flatten(init)),
                Chars(last), |init|);
    }
  }

  lemma {:induction false} ErrorStep(all: nat, s: nat, e: nat, total: nat, c: nat, d: nat, k: nat)
    requires -(k * all) <= 2 * (all * s - total * c) <= k * all
    requires 0 - all <= 2 * (all * e - total * d) <= all
    ensures -((k + 1) * all) <= 2 * (all * (s + e) - total * (c + d)) <= (k + 1) * all
  {
    assert all * (s + e) == all * s + all * e;
    assert total * (c + d) == total * c + total * d;
    assert (k + 1) * all == k * all + all;
  }

  /** The sentences that are cut up have some character between them. */
  predicate HasText(text: string, ops: TextOps) {
    text != "" || NonBlank(ops.boundaries(text), ops) != []
  }

  lemma {:induction false} NonemptyChars(parts: seq<string>)
    requires parts != [] && |parts[|parts| - 1]| > 0
    ensures Chars(parts) > 0
  {
  }

  lemma {:induction false} HasTextChars(text: string, ops: TextOps)
    ensures HasText(text, ops) <==> Chars(Sentences(text, ops)) > 0
  {
    var found := NonBlank(ops.boundaries(text), ops);
    if found != [] {
      NonemptyChars(found);
    } else {
      assert [text][..0] == [];
      assert Chars([text]) == Chars([text][..0]) + |text|;
    }
  }

  lemma {:induction false} Cancel(all: int, x: int, k: int)
    requires all > 0 && -(k * all) <= 2 * (all * x) <= k * all
    ensures -k <= 2 * x <= k
  {
    Cancel1(all, 2 * x, k);
    Cancel1(all, -(2 * x), k);
    assert all * (2 * x) == 2 * (all * x) && all * -(2 * x) == -(2 * (all * x));
  }

  lemma {:induction false} Cancel1(all: int, y: int, k: int)
    requires all > 0
    ensures all * y <= k * all ==> y <= k
  {
    if y > k {
      MulMono(all, k + 1, y);
      assert all * (k + 1) == k * all + all;
    }
  }

  lemma {:induction false} MulMono(a: int, b: int, c: int)
    requires a >= 0 && b <= c
    ensures a * b <= a * c
  {
    assert a * (c - b) >= 0;
    assert a * (c - b) == a * c - a * b;
  }

  lemma {:induction false} Spread(all: int, s: int, total: int)
    ensures 2 * (all * s - total * all) == 2 * (all * (s - total))
  {
  }

  lemma {:induction false} PartsAreEstimates(text: string, total: nat, max: nat, ops: TextOps)
    requires Chars(Sentences(text, ops)) > 0
    ensures var all := Chars(Sentences(text, ops));
            SplitParagraph(text, total, max, ops)
              == Estimates(Pieces(Sentences(text, ops), total, all, max), total, all)
  {
  }

  lemma {:induction false} TextAddsUp(text: string, total: nat, max: nat, ops: TextOps)
    requires HasText(text, ops)
    ensures var parts := SplitParagraph(text, total, max, ops);
            -|parts| <= 2 * (Sum(parts) - total) <= |parts|
  {
    hide *;
    HasTextChars(text, ops);
    PartsAreEstimates(text, total, max, ops);
    var sentences := Sentences(text, ops);
    var all := Chars(sentences);
    var pieces := Pieces(sentences, total, all, max);
    var parts := SplitParagraph(text, total, max, ops);
    PiecesInOrder(sentences, total, all, max);
    EstimateError(pieces, total, all);
    Spread(all, Sum(parts), total);
    Cancel(all, Sum(parts) - total, |parts|);
  }

  lemma {:induction false} NoTextSplit(text: string, total: nat, max: nat, ops: TextOps)
    requires !HasText(text, ops)
    ensures SplitParagraph(text, total, max, ops) == [("", 0)] && Sum([("", 0)]) == 0
  {
    EmptyText(total, max);
    assert [("", 0 as nat)][..0] == [];
    assert Sum([("", 0)]) == Sum([("", 0 as nat)][..0]) + 0;
  }

  /** The estimates add up to the total within half a token per piece exactly when there is text
      to share it out over, or nothing to share; empty text loses all its tokens. */
  lemma {:induction false} EstimatesAddUp(text: string, total: nat, max: nat, ops: TextOps)
    ensures var parts := SplitParagraph(text, total, max, ops);
            (-|parts| <= 2 * (Sum(parts) - total) <= |parts|) <==> (HasText(text, ops) || total == 0)
    ensures !HasText(text, ops) ==> SplitParagraph(text, total, max, ops) == [("", 0)]
  {
    hide SplitParagraph;
    if HasText(text, ops) {
      TextAddsUp(text, total, max, ops);
    } else {
      NoTextSplit(text, total, max, ops);
    }
  }

  lemma {:induction false} EmptyText(total: nat, max: nat)
    ensures Chars([""]) == 0 && Pieces([""], total, 1, max) == [[""]]
    ensures Estimates([[""]], total, 1) == [("", 0)]
  {
    assert [""][..0] == [];
    assert Chars([""]) == Chars([""][..0]) + |""|;
    assert total * 0 == 0;
    assert Pieces([""], total, 1, max) == Pieces([""][..0], total, 1, max) + [[""]];
  }

  /** `_split_large_paragraph`. */
  method SplitLargeParagraph(text: string, total: nat, max: nat, ops: TextOps) returns (result: seq<(string, nat)>)
    ensures result == SplitParagraph(text, total, max, ops)
  {
    var sentences := NonBlank(ops.boundaries(text), ops);
    if sentences == [] {
      sentences := [text];
    }
    hide Share, Estimates, Pieces, Chars, NonBlank;
    var all := TotalChars(sentences);
    var groups: seq<seq<string>> := [];
    var current: seq<string> := [];
    var currentChars := 0;
    CharsSnoc([], "");
    var i := 0;
    while i < |sentences|
      invariant 0 <= i <= |sentences| && currentChars == Chars(current)
      invariant (current == [] <==> i == 0) && (i == 0 ==> groups == [])
      invariant i > 0 ==> groups + [current] == Pieces(sentences[..i], total, all, max)
    {
      var sentence := sentences[i];
      CharsSnoc(current, sentence);
      if i > 0 {
        PiecesNext(sentences, i, total, all, max, groups, current);
      } else {
        FirstPiece(sentences, total, all, max);
      }
      current := current + [sentence];
      currentChars := currentChars + |sentence|;
      var estimated := Share(total, currentChars, all);
      if estimated >= max && |current| > 1 {
        groups := groups + [current[..|current| - 1]];
        current := [sentence];
        currentChars := |sentence|;
      }
      assert i == 0 ==> current == [sentence] && groups + [current] == [current];
      i := i + 1;
    }
    assert sentences[..|sentences|] == sentences;
    if current != [] {
      groups := groups + [current];
    }
    result := EstimatePieces(groups, total, all);
  }

  method EstimatePieces(groups: seq<seq<string>>, total: nat, all: nat) returns (result: seq<(string, nat)>)
    requires all > 0
    ensures result == Estimates(groups, total, all)
  {
    hide Share;
    result := [];
    for k := 0 to |groups|
      invariant result == Estimates(groups[..k], total, all)
    {
      result := result + [(Join(" ", groups[k]), Share(total, Chars(groups[k]), all))];
    }
    assert groups[..|groups|] == groups;
  }
}
