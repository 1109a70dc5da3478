/** The incremental decoder: a buffer cut at blank lines, each block handed to the parser. */
module SseDecoder {
  import opened Seqs
  import opened SseParser

  /** The position of the first empty line break, or -1. */
  function BreakAt(s: string): (r: int)
    ensures -1 <= r <= |s| - 2 || r == -1
    ensures r >= 0 ==> s[r] == '\n' && s[r + 1] == '\n'
  {
    if |s| < 2 then -1
    else if s[0] == '\n' && s[1] == '\n' then 0
    else
      var r := BreakAt(s[1..]);
      if r < 0 then -1 else r + 1
  }

  /** The frames of one complete block, parsed with its blank line restored. */
  function BlockFrames(block: string, num: ToNumber): seq<Frame> {
    Parse(block + "\n\n", num)
  }

  /** The frames of all complete blocks of a buffer. */
  function Emitted(s: string, num: ToNumber): seq<Frame>
    decreases |s|
  {
    var i := BreakAt(s);
    if i < 0 then [] else BlockFrames(s[..i], num) + Emitted(s[i + 2..], num)
  }

  /** What is left after the last complete block. */
  function Rest(s: string): (r: string)
    ensures |r| <= |s|
    decreases |s|
  {
    var i := BreakAt(s);
    if i < 0 then s else Rest(s[i + 2..])
  }

  function EndsWithNewline(s: string): bool {
    s != "" && s[|s| - 1] == '\n'
  }

  function FlushFrames(rest: string, num: ToNumber): seq<Frame> {
    if rest == "" then []
    else Parse(if EndsWithNewline(rest) then rest + "\n" else rest + "\n\n", num)
  }

  /** What the decoder makes of a whole text pushed at once. */
  function Decoded(text: string, num: ToNumber): seq<Frame> {
    Emitted(Normalize(text), num) + FlushFrames(Rest(Normalize(text)), num)
  }

  class SseStreamDecoder {
    var buffer: string
    const num: ToNumber

    constructor (num: ToNumber)
      ensures buffer == "" && this.num == num
    {
      buffer := "";
      this.num := num;
    }

    method Push(chunk: string) returns (frames: seq<Frame>)
      modifies this
      ensures frames == Emitted(Normalize(old(buffer) + chunk), num)
      ensures buffer == Rest(Normalize(old(buffer) + chunk))
    {
      hide Normalize, Emitted, Rest;
      buffer := buffer + chunk;
      buffer := Normalize(buffer);
      frames := [];
      var index := BreakAt(buffer);
      while index >= 0
        invariant index == BreakAt(buffer)
        invariant frames + Emitted(buffer, num) == Emitted(Normalize(old(buffer) + chunk), num)
        invariant Rest(buffer) == Rest(Normalize(old(buffer) + chunk))
        decreases |buffer|
      {
        CutFirst(buffer, index, num);
        var frame := buffer[..index + 1];
        assert frame + "\n" == buffer[..index] + "\n\n";
        buffer := buffer[index + 2..];
        var parsed := ParseSseStream(frame + "\n", num);
        ConcatAssoc(frames, parsed, Emitted(buffer, num));
        frames := frames + parsed;
        index := BreakAt(buffer);
      }
      NoBreak(buffer, num);
    }

    method Flush() returns (frames: seq<Frame>)
      modifies this
      ensures frames == FlushFrames(old(buffer), num) && buffer == ""
    {
      if buffer == "" {
        return [];
      }
      var rest := buffer;
      buffer := "";
      frames := ParseSseStream(if EndsWithNewline(rest) then rest + "\n" else rest + "\n\n", num);
    }

    /** Push every chunk, then flush. */
    method DecodeAll(chunks: seq<string>) returns (frames: seq<Frame>)
      modifies this
      ensures frames == DecodeChunks(old(buffer), chunks, num) && buffer == ""
    {
      hide Normalize, Emitted, Rest, FlushFrames;
      frames := [];
      for i := 0 to |chunks|
        invariant frames + DecodeChunks(buffer, chunks[i..], num) == DecodeChunks(old(buffer), chunks, num)
      {
        assert chunks[i..][0] == chunks[i] && chunks[i..][1..] == chunks[i + 1..];
        ghost var before := buffer;
        var more := Push(chunks[i]);
        assert DecodeChunks(before, chunks[i..], num) == more + DecodeChunks(buffer, chunks[i + 1..], num);
        ConcatAssoc(frames, more, DecodeChunks(buffer, chunks[i + 1..], num));
        frames := frames + more;
      }
      var last := Flush();
      frames := frames + last;
    }
  }

  /** The frames of pushing `chunks` onto `buffer`, one by one, and then flushing. */
  function DecodeChunks(buffer: string, chunks: seq<string>, num: ToNumber): seq<Frame>
    decreases |chunks|
  {
    if chunks == [] then FlushFrames(buffer, num)
    else
      var n := Normalize(buffer + chunks[0]);
      Emitted(n, num) + DecodeChunks(Rest(n), chunks[1..], num)
  }

  // Independence of chunking.

  /** No CR directly before a CR LF. (Weaker than "every CR is followed by LF".) */
  ghost predicate StableNewlines(s: string) {
    forall i :: 0 <= i && i + 2 < |s| ==> !(s[i] == '\r' && s[i + 1] == '\r' && s[i + 2] == '\n')
  }

  lemma {:induction false} StablePrefix(a: string, b: string)
    requires StableNewlines(a + b)
    ensures StableNewlines(a)
  {
    forall i | 0 <= i && i + 2 < |a|
      ensures !(a[i] == '\r' && a[i + 1] == '\r' && a[i + 2] == '\n')
    {
      assert (a + b)[i] == a[i] && (a + b)[i + 1] == a[i + 1] && (a + b)[i + 2] == a[i + 2];
    }
  }

  lemma {:induction false} StableSuffix(s: string, k: nat)
    requires StableNewlines(s) && k <= |s|
    ensures StableNewlines(s[k..])
  {
    forall i | 0 <= i && i + 2 < |s[k..]|
      ensures !(s[k..][i] == '\r' && s[k..][i + 1] == '\r' && s[k..][i + 2] == '\n')
    {
      assert s[k..][i] == s[k + i] && s[k..][i + 1] == s[k + i + 1] && s[k..][i + 2] == s[k + i + 2];
    }
  }

  lemma {:induction false} NormalizeCrLf(s: string)
    ensures Normalize("\r\n" + s) == "\n" + Normalize(s)
  {
    assert ("\r\n" + s)[2..] == s;
  }

  lemma {:induction false} NormalizeOther(c: char, s: string)
    requires !(c == '\r' && s != "" && s[0] == '\n')
    ensures Normalize([c] + s) == [c] + Normalize(s)
  {
    assert ([c] + s)[1..] == s;
  }

  /** What the first character of a normalised text can be. */
  lemma {:induction false} NormalizedHead(a: string)
    ensures a == "" <==> Normalize(a) == ""
    ensures a != "" ==> Normalize(a)[0] == (if |a| >= 2 && a[0] == '\r' && a[1] == '\n' then '\n' else a[0])
  {
  }

  /** A lone CR stays alone: what follows it does not become a line feed. */
  lemma {:induction false} LoneCr(a: string, b: string)
    requires StableNewlines(a + b) && a != "" && !(|a| >= 2 && a[0] == '\r' && a[1] == '\n')
    ensures a[0] == '\r' && a[1..] != "" ==> (Normalize(a[1..]) + b)[0] != '\n'
  {
    if a[0] == '\r' && a[1..] != "" {
      NormalizedHead(a[1..]);
      assert (a + b)[0] == '\r' && (a + b)[1] == a[1];
      if |a| >= 3 {
        assert (a + b)[2] == a[2];
      }
    }
  }

  /** Two chunks may be normalised one after the other. */
  lemma {:induction false} NormalizeInParts(a: string, b: string)
    requires StableNewlines(a + b)
    ensures Normalize(Normalize(a) + b) == Normalize(a + b)
    decreases |a|
  {
    if a == "" {
      assert Normalize(a) + b == a + b;
    } else if |a| >= 2 && a[0] == '\r' && a[1] == '\n' {
      PartsAfterCrLf(a, b);
    } else {
      PartsAfterOther(a, b);
    }
  }

  lemma {:induction false} PartsAfterCrLf(a: string, b: string)
    requires StableNewlines(a + b) && |a| >= 2 && a[0] == '\r' && a[1] == '\n'
    ensures Normalize(Normalize(a) + b) == Normalize(a + b)
    decreases |a|, 0
  {
    hide Normalize;
    var t := a[2..];
    assert a == "\r\n" + t && a + b == "\r\n" + (t + b);
    StableSuffix(a + b, 2);
    assert (a + b)[2..] == t + b;
    NormalizeInParts(t, b);
    NormalizeCrLf(t);
    NormalizeCrLf(t + b);
    assert Normalize(a) + b == ['\n'] + (Normalize(t) + b);
    NormalizeOther('\n', Normalize(t) + b);
  }

  lemma {:induction false} StableCons(c: char, t: string)
    requires StableNewlines([c] + t)
    ensures StableNewlines(t)
  {
    StableSuffix([c] + t, 1);
    assert ([c] + t)[1..] == t;
  }

  lemma {:induction false} FirstOf(t: string, b: string)
    requires t != ""
    ensures t + b != "" && (t + b)[0] == t[0]
  {
  }

  /** The same step with the first character split off. */
  lemma {:induction false} PartsAfterCons(c: char, t: string, b: string)
    requires StableNewlines([c] + (t + b)) && t != "" && !(c == '\r' && t[0] == '\n')
    requires c == '\r' ==> (Normalize(t) + b)[0] != '\n'
    requires Normalize(Normalize(t) + b) == Normalize(t + b)
    ensures Normalize(Normalize([c] + t) + b) == Normalize(([c] + t) + b)
  {
    hide *;
    NormalizeOther(c, t);
    FirstOf(t, b);
    NormalizeOther(c, t + b);
    ConcatAssoc([c], t, b);
    ConcatAssoc([c], Normalize(t), b);
    NormalizeOther(c, Normalize(t) + b);
  }

  lemma {:induction false} PartsAfterOther(a: string, b: string)
    requires StableNewlines(a + b) && a != "" && !(|a| >= 2 && a[0] == '\r' && a[1] == '\n')
    ensures Normalize(Normalize(a) + b) == Normalize(a + b)
    decreases |a|, 0
  {
    hide Normalize, StableNewlines;
    var c, t := a[0], a[1..];
    assert a == [c] + t;
    LoneCr(a, b);
    if t == "" {
      NormalizeOther(c, "");
      NormalizedHead("");
      assert Normalize(a) + b == a + b;
    } else {
      ConcatAssoc([c], t, b);
      StableCons(c, t + b);
      NormalizeInParts(t, b);
      PartsAfterCons(c, t, b);
    }
  }

  /** Normalisation splits wherever no CR LF is cut in two. */
  lemma {:induction false} NormalizeSplit(a: string, b: string)
    requires b == "" || b[0] != '\n'
    ensures Normalize(a + b) == Normalize(a) + Normalize(b)
    decreases |a|
  {
    if a == "" {
      assert a + b == b;
    } else if |a| >= 2 && a[0] == '\r' && a[1] == '\n' {
      NormalizeSplit(a[2..], b);
      assert (a + b)[2..] == a[2..] + b;
      ConcatAssoc("\n", Normalize(a[2..]), Normalize(b));
    } else {
      NormalizeSplit(a[1..], b);
      assert (a + b)[1..] == a[1..] + b;
      ConcatAssoc([a[0]], Normalize(a[1..]), Normalize(b));
    }
  }

  lemma {:induction false} NormalizeShrinks(s: string)
    ensures |Normalize(s)| <= |s|
    decreases |s|
  {
    if s != "" {
      NormalizeShrinks(s[1..]);
      if |s| >= 2 {
        NormalizeShrinks(s[2..]);
      }
    }
  }

  lemma {:induction false} CrCrLfAfter(p: string, b: string)
    ensures Normalize(p + "\r\r\n" + b) == Normalize(p) + ("\r\n" + Normalize(b))
  {
    hide Normalize;
    assert p + "\r\r\n" + b == p + ("\r\r\n" + b);
    NormalizeSplit(p, "\r\r\n" + b);
    CrCrLf(b);
  }

  lemma {:induction false} CrLfAfter(n: string, b: string)
    ensures Normalize(n + "\r\n" + b) == Normalize(n) + ("\n" + Normalize(b))
  {
    hide Normalize;
    assert n + "\r\n" + b == n + ("\r\n" + b);
    NormalizeSplit(n, "\r\n" + b);
    NormalizeCrLf(b);
  }

  /** Cut right after two CRs and a LF, a text is shortened once more. */
  lemma {:induction false} CrCrLfCollapses(p: string, b: string)
    ensures |Normalize(Normalize(p + "\r\r\n") + b)| < |Normalize(p + "\r\r\n" + b)|
  {
    assert Normalize("") == "";
    hide Normalize;
    CrCrLfAfter(p, "");
    assert p + "\r\r\n" + "" == p + "\r\r\n" && "\r\n" + "" == "\r\n";
    CrCrLfAfter(p, b);
    CrLfAfter(Normalize(p), b);
    NormalizeShrinks(Normalize(p));
  }

  lemma {:induction false} CrCrLf(b: string)
    ensures Normalize("\r\r\n" + b) == "\r\n" + Normalize(b)
  {
    assert ['\r'] + ("\r\n" + b) == "\r\r\n" + b;
    NormalizeOther('\r', "\r\n" + b);
    NormalizeCrLf(b);
    assert ['\r'] + ("\n" + Normalize(b)) == "\r\n" + Normalize(b);
  }

  /** Cut at `k`, the text normalises part by part as it does whole. */
  ghost predicate CutsClean(s: string, k: nat)
    requires k <= |s|
  {
    Normalize(Normalize(s[..k]) + s[k..]) == Normalize(s)
  }

  lemma {:induction false} StableCutsClean(s: string, k: nat)
    requires StableNewlines(s) && k <= |s|
    ensures CutsClean(s, k)
  {
    assert s[..k] + s[k..] == s;
    NormalizeInParts(s[..k], s[k..]);
  }

  lemma {:induction false} UnstableCut(s: string, i: nat)
    requires i + 2 < |s| && s[i] == '\r' && s[i + 1] == '\r' && s[i + 2] == '\n'
    ensures !CutsClean(s, i + 3)
  {
    var k := i + 3;
    assert s[..k] == s[..i] + "\r\r\n" && s == s[..k] + s[k..];
    CrCrLfCollapses(s[..i], s[k..]);
  }

  /** Every cut of a text normalises like the whole, exactly when no CR stands directly before a CR LF. */
  lemma {:induction false} InPartsExactlyWhen(s: string)
    ensures StableNewlines(s) <==> forall k :: 0 <= k <= |s| ==> CutsClean(s, k)
  {
    hide CutsClean;
    if StableNewlines(s) {
      forall k | 0 <= k <= |s|
        ensures CutsClean(s, k)
      {
        StableCutsClean(s, k);
      }
    } else {
      var i :| 0 <= i && i + 2 < |s| && s[i] == '\r' && s[i + 1] == '\r' && s[i + 2] == '\n';
      UnstableCut(s, i);
    }
  }

  /** A normalised, complete prefix passes through untouched. */
  ghost predicate NoCrLf(s: string) {
    forall i :: 0 <= i && i + 1 < |s| ==> !(s[i] == '\r' && s[i + 1] == '\n')
  }

  lemma {:induction false} NormalizedHasNoCrLf(a: string)
    requires StableNewlines(a)
    ensures NoCrLf(Normalize(a))
    decreases |a|
  {
    if a == "" {
    } else if |a| >= 2 && a[0] == '\r' && a[1] == '\n' {
      StableSuffix(a, 2);
      NormalizedHasNoCrLf(a[2..]);
      ConsNoCrLf('\n', Normalize(a[2..]));
    } else {
      StableSuffix(a, 1);
      NormalizedHasNoCrLf(a[1..]);
      NormalizedHead(a[1..]);
      assert a[1..] != "" ==> a[1..][0] == a[1];
      assert |a| >= 3 ==> a[1..][1] == a[2];
      ConsNoCrLf(a[0], Normalize(a[1..]));
    }
  }

  lemma {:induction false} ConsNoCrLf(c: char, s: string)
    requires NoCrLf(s) && !(c == '\r' && s != "" && s[0] == '\n')
    ensures NoCrLf([c] + s)
  {
    var t := [c] + s;
    forall i | 0 <= i && i + 1 < |t|
      ensures !(t[i] == '\r' && t[i + 1] == '\n')
    {
      if i > 0 {
        assert t[i] == s[i - 1] && t[i + 1] == s[i];
      }
    }
  }

  lemma {:induction false} NormalizePrefix(x: string, y: string)
    requires NoCrLf(x) && (x == "" || x[|x| - 1] != '\r')
    ensures Normalize(x + y) == x + Normalize(y)
    decreases |x|
  {
    if x == "" {
      assert x + y == y && x + Normalize(y) == Normalize(y);
    } else {
      var t := x[1..];
      assert (x + y)[1..] == t + y && (x + y)[0] == x[0];
      forall i | 0 <= i && i + 1 < |t|
        ensures !(t[i] == '\r' && t[i + 1] == '\n')
      {
        assert t[i] == x[i + 1] && t[i + 1] == x[i + 2];
      }
      NormalizePrefix(t, y);
      if |x| >= 2 {
        assert (x + y)[1] == x[1];
      }
      assert Normalize(x + y) == [x[0]] + Normalize(t + y);
      assert x + Normalize(y) == [x[0]] + (t + Normalize(y));
    }
  }

  lemma {:induction false} BreakOfPrefix(s: string, y: string)
    requires BreakAt(s) >= 0
    ensures BreakAt(s[..BreakAt(s) + 2] + y) == BreakAt(s)
    decreases |s|
  {
    var i := BreakAt(s);
    var t := s[..i + 2] + y;
    assert t[0] == s[0] && t[1] == s[1];
    if !(s[0] == '\n' && s[1] == '\n') {
      assert t[1..] == s[1..][..i + 1] + y;
      BreakOfPrefix(s[1..], y);
    }
  }

  /** The part of the buffer that complete blocks take up. */
  function Done(s: string): (r: string)
    ensures s == r + Rest(s) && (r == "" || r[|r| - 1] == '\n')
    decreases |s|
  {
    var i := BreakAt(s);
    if i < 0 then ""
    else
      var more := Done(s[i + 2..]);
      assert s == s[..i + 2] + s[i + 2..];
      s[..i + 2] + more
  }

  lemma {:induction false} NoBreak(s: string, num: ToNumber)
    requires BreakAt(s) < 0
    ensures Emitted(s, num) == [] && Rest(s) == s
  {
  }

  lemma {:induction false} CutFirst(s: string, i: nat, num: ToNumber)
    requires BreakAt(s) == i
    ensures Emitted(s, num) == BlockFrames(s[..i], num) + Emitted(s[i + 2..], num)
    ensures Rest(s) == Rest(s[i + 2..]) && Done(s) == s[..i + 2] + Done(s[i + 2..])
  {
  }

  lemma {:induction false} HeadTail(s: string, i: nat, z: string)
    requires i + 2 <= |s|
    ensures var t := s[..i + 2] + z;
            t[..i] == s[..i] && t[i + 2..] == z
  {
  }

  /** Complete blocks in front are cut off first, whatever follows them. */
  lemma {:induction false} DoneFirst(s: string, y: string, num: ToNumber)
    ensures Emitted(Done(s) + y, num) == Emitted(s, num) + Emitted(y, num)
    ensures Rest(Done(s) + y) == Rest(y)
    decreases |s|
  {
    var i := BreakAt(s);
    if i < 0 {
      assert "" + y == y;
    } else {
      hide *;
      var more := Done(s[i + 2..]);
      DoneFirst(s[i + 2..], y, num);
      CutFirst(s, i, num);
      ConcatAssoc(s[..i + 2], more, y);
      BreakOfPrefix(s, more + y);
      HeadTail(s, i, more + y);
      CutFirst(s[..i + 2] + (more + y), i, num);
      ConcatAssoc(BlockFrames(s[..i], num), Emitted(s[i + 2..], num), Emitted(y, num));
    }
  }

  lemma {:induction false} NoCrLfPrefix(x: string, y: string)
    requires NoCrLf(x + y)
    ensures NoCrLf(x)
  {
    forall i | 0 <= i && i + 1 < |x|
      ensures !(x[i] == '\r' && x[i + 1] == '\n')
    {
      assert (x + y)[i] == x[i] && (x + y)[i + 1] == x[i + 1];
    }
  }

  /** One push advances the decoder as if the text so far had come in one piece. */
  lemma {:induction false} PushOne(seen: string, chunk: string, num: ToNumber)
    requires StableNewlines(seen + chunk)
    ensures var b := Normalize(Rest(Normalize(seen)) + chunk);
            && Emitted(Normalize(seen), num) + Emitted(b, num) == Emitted(Normalize(seen + chunk), num)
            && Rest(b) == Rest(Normalize(seen + chunk))
  {
    hide Emitted, Normalize, Rest, Done;
    var n := Normalize(seen);
    StablePrefix(seen, chunk);
    NormalizedHasNoCrLf(seen);
    NoCrLfPrefix(Done(n), Rest(n));
    NormalizeInParts(seen, chunk);
    assert n + chunk == Done(n) + (Rest(n) + chunk);
    NormalizePrefix(Done(n), Rest(n) + chunk);
    DoneFirst(n, Normalize(Rest(n) + chunk), num);
  }

  lemma {:induction false} DecodeFrom(seen: string, chunks: seq<string>, num: ToNumber)
    requires StableNewlines(seen + Flatten(chunks))
    ensures Emitted(Normalize(seen), num) + DecodeChunks(Rest(Normalize(seen)), chunks, num)
            == Decoded(seen + Flatten(chunks), num)
    decreases |chunks|
  {
    if chunks == [] {
      assert seen + Flatten(chunks) == seen;
    } else {
      hide Normalize, Emitted, Rest, FlushFrames, Decoded, StableNewlines;
      var next := seen + chunks[0];
      assert seen + Flatten(chunks) == next + Flatten(chunks[1..]);
      StablePrefix(next, Flatten(chunks[1..]));
      PushOne(seen, chunks[0], num);
      DecodeFrom(next, chunks[1..], num);
      var n := Normalize(Rest(Normalize(seen)) + chunks[0]);
      ConcatAssoc(Emitted(Normalize(seen), num), Emitted(n, num), DecodeChunks(Rest(n), chunks[1..], num));
    }
  }

  lemma {:induction false} NothingYet(num: ToNumber)
    ensures Emitted(Normalize(""), num) == [] && Rest(Normalize("")) == ""
  {
  }

  /** However a text is cut into chunks, a fresh decoder yields the same frames. */
  lemma {:induction false} ChunkingIndependent(chunks: seq<string>, num: ToNumber)
    requires StableNewlines(Flatten(chunks))
    ensures DecodeChunks("", chunks, num) == Decoded(Flatten(chunks), num)
  {
    NothingYet(num);
    hide *;
    assert "" + Flatten(chunks) == Flatten(chunks);
    DecodeFrom("", chunks, num);
    assert [] + DecodeChunks("", chunks, num) == DecodeChunks("", chunks, num);
  }

  /** A comment line holding `crs` carriage returns, its line break, and `t`. */
  function CrComment(crs: nat, t: string): string
    requires 1 <= crs <= 4
  {
    var run := if crs == 1 then "\n" else if crs == 2 then "\r\n" else if crs == 3 then "\r\r\n" else "\r\r\r\n";
    ":" + run + t
  }

  lemma {:induction false} CrDropped(crs: nat, t: string)
    requires 2 <= crs <= 4 && Normalize(t) == t
    ensures Normalize(CrComment(crs, t)) == CrComment(crs - 1, t)
  {
    hide Normalize;
    NormalizeCrLf(t);
    NormalizeOther('\r', "\r\n" + t);
    NormalizeOther('\r', "\r\r\n" + t);
    assert ['\r'] + ("\r\n" + t) == "\r\r\n" + t && ['\r'] + ("\r\r\n" + t) == "\r\r\r\n" + t;
    assert ['\r'] + ("\n" + t) == "\r\n" + t && ['\r'] + ("\r\n" + t) == "\r\r\n" + t;
    var run := if crs == 2 then "\r\n" + t else if crs == 3 then "\r\r\n" + t else "\r\r\r\n" + t;
    NormalizeOther(':', run);
    assert CrComment(crs, t) == [':'] + run;
  }

  lemma {:induction false} ShortTexts()
    ensures Normalize("") == "" && Normalize(":") == ":" && Normalize(":\n\n") == ":\n\n"
  {
    NormalizeOther('\n', "");
    NormalizeOther('\n', "\n");
    NormalizeOther(':', "\n\n");
    assert ['\n'] + "\n" == "\n\n" && [':'] + "\n\n" == ":\n\n";
  }

  /** Lines of two comments, the first one holding one carriage return or none. */
  lemma {:induction false} TwoComments(crs: nat, num: ToNumber)
    requires crs == 1 || crs == 2
    ensures ParseLines(Lines(CrComment(crs, ":\n\n")), num) == [Comment(if crs == 1 then "" else "\r"), Comment("")]
  {
    var c := if crs == 1 then "" else "\r";
    var first := ":" + c;
    assert CrComment(crs, ":\n\n") == first + "\n" + (":" + "\n" + ("" + "\n" + ""));
    LinesConcat(first, ":" + "\n" + ("" + "\n" + ""));
    LinesConcat(":", "" + "\n" + "");
    LinesConcat("", "");
    LinesCons('\r', "");
    LinesCons(':', c);
    LinesCons(':', "");
    assert first == [':'] + c && [':'] + "" == ":" && ['\r'] + "" == "\r";
    assert Lines(first) == [first];
    FoldComments(first, num);
    assert first[1..] == c;
  }

  lemma {:induction false} FoldComments(first: string, num: ToNumber)
    requires first != "" && first[0] == ':'
    ensures ParseLines([first] + ([":"] + ([""] + [""])), num) == [Comment(first[1..]), Comment("")]
  {
    var lines := [first, ":", "", ""];
    assert [first] + ([":"] + ([""] + [""])) == lines;
    assert lines[1..] == [":", "", ""] && [":", "", ""][1..] == ["", ""] && ["", ""][1..] == [""] && [""][1..] == [];
    var one := START.(frames := [Comment(first[1..])]);
    var two := START.(frames := [Comment(first[1..]), Comment("")]);
    assert ":"[1..] == "";
    assert Fold(two, ["", ""], num) == two;
    assert Fold(one, [":", "", ""], num) == two;
    assert Fold(START, lines, num) == Fold(one, [":", "", ""], num);
  }

  lemma {:induction false} FlushComments(crs: nat, num: ToNumber)
    requires crs == 2 || crs == 3
    ensures FlushFrames(CrComment(crs, ":"), num) == [Comment(if crs == 2 then "" else "\r"), Comment("")]
  {
    hide Normalize, ParseLines, Lines;
    ShortTexts();
    CrDropped(crs, ":\n\n");
    TwoComments(crs - 1, num);
    var rest := CrComment(crs, ":");
    assert rest[|rest| - 1] == ':';
    assert rest + "\n\n" == CrComment(crs, ":\n\n");
  }

  lemma {:induction false} NoBreaks(num: ToNumber)
    ensures Emitted(":\r\r\n:", num) == [] && Rest(":\r\r\n:") == ":\r\r\n:"
    ensures Emitted(":\r\r\n", num) == [] && Rest(":\r\r\n") == ":\r\r\n"
    ensures Emitted(":\r\n:", num) == [] && Rest(":\r\n:") == ":\r\n:"
  {
    assert BreakAt(":\r\r\n:") == -1 && BreakAt(":\r\r\n") == -1 && BreakAt(":\r\n:") == -1;
  }

  /** The condition is needed: two CRs before a CR LF are normalised once more when a chunk ends there,
      and the frame loses a carriage return. */
  lemma {:induction false} ChunkingMatters(num: ToNumber)
    ensures DecodeChunks("", [":\r\r\r\n:"], num) == [Comment("\r"), Comment("")]
    ensures DecodeChunks("", [":\r\r\r\n", ":"], num) == [Comment(""), Comment("")]
  {
    hide Normalize, FlushFrames, Emitted, Rest;
    ShortTexts();
    CrDropped(4, ":");
    CrDropped(4, "");
    CrDropped(3, ":");
    NoBreaks(num);
    FlushComments(3, num);
    FlushComments(2, num);
    assert CrComment(4, ":") == ":\r\r\r\n:" && CrComment(3, ":") == ":\r\r\n:" && CrComment(2, ":") == ":\r\n:";
    assert CrComment(4, "") == ":\r\r\r\n" && CrComment(3, "") == ":\r\r\n";
    PushChunk("", ":\r\r\r\n:", [], num);
    PushChunk("", ":\r\r\r\n", [":"], num);
    PushChunk(":\r\r\n", ":", [], num);
    assert "" + ":\r\r\r\n:" == ":\r\r\r\n:" && "" + ":\r\r\r\n" == ":\r\r\r\n" && ":\r\r\n" + ":" == ":\r\r\n:";
    assert [":\r\r\r\n", ":"] == [":\r\r\r\n"] + [":"] && [":"] == [":"] + [];
  }

  lemma {:induction false} PushChunk(buffer: string, chunk: string, more: seq<string>, num: ToNumber)
    ensures var n := Normalize(buffer + chunk);
            DecodeChunks(buffer, [chunk] + more, num) == Emitted(n, num) + DecodeChunks(Rest(n), more, num)
  {
    assert ([chunk] + more)[1..] == more;
  }
}
