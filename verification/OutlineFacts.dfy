/** What the outline of a document is, said without a stack: the parent of a heading is the
    nearest earlier heading of a smaller level, running text belongs to the most recent heading,
    an atomic group is a maximal run, and nothing is lost or repeated. */
module OutlineFacts {
  import opened Seqs
  import opened DocumentModel
  import opened Outline

  /** The last heading among the first `n` blocks, or -1. */
  function MostRecent(doc: seq<Placed>, n: nat): (h: int)
    requires n <= |doc|
    ensures -1 <= h < n
    ensures h >= 0 ==> IsHeading(doc[h])
  {
    if n == 0 then -1 else if IsHeading(doc[n - 1]) then n - 1 else MostRecent(doc, n - 1)
  }

  /** The last heading of level below `level` among the first `n` blocks, or -1. */
  function Nearest(doc: seq<Placed>, n: nat, level: nat): (h: int)
    requires n <= |doc|
    ensures -1 <= h < n
    ensures h >= 0 ==> IsHeading(doc[h]) && LevelOf(doc[h]) < level
  {
    if n == 0 then -1
    else if IsHeading(doc[n - 1]) && LevelOf(doc[n - 1]) < level then n - 1
    else Nearest(doc, n - 1, level)
  }

  /** The running text among the first `n` blocks whose most recent heading is `h`. */
  function BodyUnder(doc: seq<Placed>, n: nat, h: int): seq<Placed>
    requires n <= |doc|
  {
    if n == 0 then []
    else
      BodyUnder(doc, n - 1, h)
      + (if IsBody(doc[n - 1]) && MostRecent(doc, n - 1) == h then [doc[n - 1]] else [])
  }

  /** The running text on `page` that precedes every heading. */
  function PreambleOn(doc: seq<Placed>, n: nat, page: nat): seq<Placed>
    requires n <= |doc|
  {
    if n == 0 then []
    else
      PreambleOn(doc, n - 1, page)
      + (if IsBody(doc[n - 1]) && MostRecent(doc, n - 1) == -1 && doc[n - 1].page == page then [doc[n - 1]] else [])
  }

  function OfKind(doc: seq<Placed>, n: nat, kind: BlockType): seq<Placed>
    requires n <= |doc|
  {
    if n == 0 then []
    else OfKind(doc, n - 1, kind) + (if doc[n - 1].block.kind == kind then [doc[n - 1]] else [])
  }

  /** The (parent level, level) pairs of headings more than one level below their parent. */
  function SkipsOf(doc: seq<Placed>, n: nat): seq<(nat, nat)>
    requires n <= |doc|
  {
    if n == 0 then []
    else
      SkipsOf(doc, n - 1)
      + (if !IsHeading(doc[n - 1]) then []
         else
           var level := LevelOf(doc[n - 1]);
           var above := Nearest(doc, n - 1, level);
           if above >= 0 && level > LevelOf(doc[above]) + 1 then [(LevelOf(doc[above]), level)] else [])
  }

  /** How often each id occurs among the blocks that are neither heading nor header/footer. */
  function IndexedIds(doc: seq<Placed>, n: nat): multiset<string>
    requires n <= |doc|
  {
    if n == 0 then multiset{}
    else
      IndexedIds(doc, n - 1)
      + (if IsHeading(doc[n - 1]) || doc[n - 1].block.kind == HeaderFooter then multiset{}
         else multiset{doc[n - 1].block.id})
  }

  /** How often each id occurs in the entries. */
  function EntryIds(entries: seq<Entry>): multiset<string> {
    if entries == [] then multiset{}
    else EntryIds(entries[..|entries| - 1]) + multiset(Ids(entries[|entries| - 1].blocks))
  }

  /** `MostRecent` is the one position of a heading, or -1, with no heading after it. */
  lemma {:induction false} MostRecentMeaning(doc: seq<Placed>, n: nat, h: int)
    requires n <= |doc| && -1 <= h < n
    ensures MostRecent(doc, n) == h <==>
            (h >= 0 ==> IsHeading(doc[h])) && (forall i :: h < i < n ==> !IsHeading(doc[i]))
  {
    if n > 0 {
      if h == n - 1 {
      } else {
        MostRecentMeaning(doc, n - 1, h);
      }
    }
  }

  /** `Nearest` is the one position of a smaller heading, or -1, with no smaller heading after it. */
  lemma {:induction false} NearestMeaning(doc: seq<Placed>, n: nat, level: nat, h: int)
    requires n <= |doc| && -1 <= h < n
    ensures Nearest(doc, n, level) == h <==>
            (h >= 0 ==> IsHeading(doc[h]) && LevelOf(doc[h]) < level)
            && (forall i :: h < i < n && IsHeading(doc[i]) ==> LevelOf(doc[i]) >= level)
  {
    if n > 0 {
      if h == n - 1 {
      } else {
        NearestMeaning(doc, n - 1, level, h);
      }
    }
  }

  lemma {:induction false} NearestSkip(doc: seq<Placed>, a: nat, b: nat, level: nat)
    requires a <= b <= |doc|
    requires forall i :: a <= i < b && IsHeading(doc[i]) ==> LevelOf(doc[i]) >= level
    ensures Nearest(doc, b, level) == Nearest(doc, a, level)
  {
    if a < b {
      NearestSkip(doc, a, b - 1, level);
    }
  }

  // The invariant.

  ghost predicate SectionAt(o: Outline, k: int, doc: seq<Placed>, i: int)
    requires Wf(o)
  {
    && 0 <= k < |o.entries| && 0 <= i < |doc| && o.entries[k].kind == Section && o.origins[k] == i
    && IsHeading(doc[i]) && o.entries[k].level == LevelOf(doc[i])
  }

  /** `k` is the entry of the heading at `i`, and -1 stands for none. */
  ghost predicate Owner(o: Outline, k: int, doc: seq<Placed>, i: int)
    requires Wf(o)
  {
    if i < 0 then k == -1 else SectionAt(o, k, doc, i)
  }

  function PathAt(o: Outline, k: int): seq<string>
    requires Wf(o) && -1 <= k < |o.entries|
  {
    if k == -1 then [] else o.entries[k].path
  }

  ghost predicate SectionOk(o: Outline, doc: seq<Placed>, n: nat, names: Naming, k: nat)
    requires Wf(o) && n <= |doc| && k < |o.entries|
  {
    var e, i := o.entries[k], o.origins[k];
    && i < n && SectionAt(o, k, doc, i)
    && Owner(o, o.parents[k], doc, Nearest(doc, i, e.level))
    && e.path == PathAt(o, o.parents[k]) + [names.title(TextOf(doc[i].block))]
    && e.blocks == BodyUnder(doc, n, i)
    && e.pageFrom == doc[i].page && e.pageTo == MaxPage(e.pageFrom, e.blocks)
  }

  ghost predicate VirtualOk(o: Outline, doc: seq<Placed>, n: nat, names: Naming, k: nat)
    requires Wf(o) && n <= |doc| && k < |o.entries|
  {
    var e := o.entries[k];
    && o.parents[k] == -1 && e.path == [names.pageLabel(e.pageFrom)] && e.level == 0
    && e.blocks == PreambleOn(doc, n, e.pageFrom) && e.blocks != []
    && e.pageFrom in o.virtualPages && o.virtualPages[e.pageFrom] == k
    && e.pageTo == MaxPage(e.pageFrom, e.blocks)
  }

  /** `doc[i..i + len]` is a maximal run of atomic blocks. */
  ghost predicate MaximalRun(doc: seq<Placed>, i: nat, len: nat) {
    && 0 < len && i + len <= |doc|
    && (forall m :: i <= m < i + len ==> IsAtomic(doc[m].block.kind))
    && (i == 0 || !IsAtomic(doc[i - 1].block.kind))
    && (i + len == |doc| || !IsAtomic(doc[i + len].block.kind))
  }

  ghost predicate GroupOk(o: Outline, doc: seq<Placed>, n: nat, k: nat)
    requires Wf(o) && n <= |doc| && k < |o.entries|
  {
    var e, i := o.entries[k], o.origins[k];
    && i + |e.blocks| <= n && MaximalRun(doc, i, |e.blocks|) && e.blocks == doc[i..i + |e.blocks|]
    && Owner(o, o.parents[k], doc, MostRecent(doc, i))
    && e.path == PathAt(o, o.parents[k]) && e.level == 0
    && e.pageFrom == MinPage(e.blocks) && e.pageTo == MaxPage(0, e.blocks)
  }

  ghost predicate ReferencesOk(o: Outline, doc: seq<Placed>, n: nat, k: nat)
    requires Wf(o) && n <= |doc| && k < |o.entries|
  {
    var e := o.entries[k];
    && o.parents[k] == -1 && e.blocks == OfKind(doc, n, Reference) && e.blocks != []
    && e.path == ["references"] && e.level == 0
    && e.pageFrom == MinPage(e.blocks) && e.pageTo == MaxPage(0, e.blocks)
  }

  ghost predicate EntryOk(o: Outline, doc: seq<Placed>, n: nat, names: Naming, k: nat)
    requires Wf(o) && n <= |doc| && k < |o.entries|
  {
    match o.entries[k].kind
    case Section => SectionOk(o, doc, n, names, k)
    case VirtualSection => VirtualOk(o, doc, n, names, k)
    case AtomicGroup => GroupOk(o, doc, n, k)
    case References => ReferencesOk(o, doc, n, k)
  }

  ghost predicate EntriesOk(o: Outline, doc: seq<Placed>, n: nat, names: Naming)
    requires Wf(o) && n <= |doc|
  {
    forall k {:trigger EntryOk(o, doc, n, names, k)} :: 0 <= k < |o.entries| ==> EntryOk(o, doc, n, names, k)
  }

  /** Sections stand in the order of their headings, and every heading has one. */
  ghost predicate Covered(o: Outline, doc: seq<Placed>, n: nat)
    requires Wf(o) && n <= |doc|
  {
    && (forall k, j :: 0 <= k < j < |o.entries| && o.entries[k].kind == Section && o.entries[j].kind == Section
          ==> o.origins[k] < o.origins[j])
    && (forall i :: 0 <= i < n && IsHeading(doc[i]) ==> exists k :: SectionAt(o, k, doc, i))
  }

  /** Position `q` of the stack is a heading, and the one below it is its nearest smaller heading. */
  ghost predicate Link(o: Outline, doc: seq<Placed>, stack: seq<nat>, q: nat)
    requires Wf(o) && q < |stack|
  {
    && stack[q] < |o.entries|
    && SectionAt(o, stack[q], doc, o.origins[stack[q]])
    && Owner(o, if q == 0 then -1 else stack[q - 1], doc, Nearest(doc, o.origins[stack[q]], o.entries[stack[q]].level))
  }

  ghost predicate Chain(o: Outline, doc: seq<Placed>, stack: seq<nat>)
    requires Wf(o)
  {
    && (forall q :: 0 <= q < |stack| ==> stack[q] < |o.entries| && o.origins[stack[q]] < |doc|)
    && (forall q {:trigger Link(o, doc, stack, q)} :: 0 <= q < |stack| ==> Link(o, doc, stack, q))
  }

  ghost predicate StackOk(o: Outline, doc: seq<Placed>, n: nat)
    requires Wf(o) && n <= |doc|
  {
    && Chain(o, doc, o.stack)
    && Owner(o, Top(o), doc, MostRecent(doc, n))
    && (o.sawHeading <==> o.stack != [])
  }

  ghost predicate VirtualPagesOk(o: Outline, doc: seq<Placed>, n: nat)
    requires Wf(o) && n <= |doc|
  {
    && (forall page :: page in o.virtualPages ==>
          o.entries[o.virtualPages[page]].kind == VirtualSection && o.entries[o.virtualPages[page]].pageFrom == page)
    && (forall page: nat :: page !in o.virtualPages ==> PreambleOn(doc, n, page) == [])
  }

  ghost predicate PendingOk(o: Outline, doc: seq<Placed>, n: nat)
    requires Wf(o) && n <= |doc|
  {
    && |o.run| <= n && o.run == doc[n - |o.run|..n]
    && (forall m :: n - |o.run| <= m < n ==> IsAtomic(doc[m].block.kind))
    && (n == |o.run| || !IsAtomic(doc[n - |o.run| - 1].block.kind))
  }

  ghost predicate StreamsOk(o: Outline, doc: seq<Placed>, n: nat)
    requires Wf(o) && n <= |doc|
  {
    && o.references == OfKind(doc, n, Reference)
    && o.headerFooter == OfKind(doc, n, HeaderFooter)
    && o.warnings == SkipsOf(doc, n)
  }

  ghost predicate Core(o: Outline, doc: seq<Placed>, n: nat, names: Naming)
    requires Wf(o) && n <= |doc|
  {
    && EntriesOk(o, doc, n, names) && Covered(o, doc, n) && StackOk(o, doc, n)
    && VirtualPagesOk(o, doc, n) && StreamsOk(o, doc, n)
    && (forall k :: 0 <= k < |o.entries| ==> o.entries[k].kind != References)
  }

  ghost predicate Invariant(o: Outline, doc: seq<Placed>, n: nat, names: Naming)
    requires Wf(o) && n <= |doc|
  {
    Core(o, doc, n, names) && PendingOk(o, doc, n)
  }

  // What a step leaves alone.

  /** `r` has the entries of `o` in their places, perhaps with more text, and may have more entries. */
  ghost predicate Extends(o: Outline, r: Outline)
  {
    && Wf(o) && Wf(r) && |o.entries| <= |r.entries|
    && o.parents <= r.parents && o.origins <= r.origins
    && (forall k :: 0 <= k < |o.entries| ==>
          && r.entries[k].kind == o.entries[k].kind && r.entries[k].path == o.entries[k].path
          && r.entries[k].level == o.entries[k].level)
    && (forall page :: page in o.virtualPages ==>
        page in r.virtualPages && r.virtualPages[page] == o.virtualPages[page])
  }

  lemma {:induction false} OwnerKept(o: Outline, r: Outline, k: int, doc: seq<Placed>, i: int)
    requires Extends(o, r) && Owner(o, k, doc, i)
    ensures Owner(r, k, doc, i)
    ensures -1 <= k < |o.entries| && PathAt(r, k) == PathAt(o, k)
  {
  }

  /** Reading block `n` adds no text to entry `k`. */
  ghost predicate Untouched(o: Outline, doc: seq<Placed>, n: nat, k: nat)
    requires Wf(o) && n < |doc| && k < |o.entries|
  {
    IsBody(doc[n]) ==>
      && (o.entries[k].kind == Section ==> MostRecent(doc, n) != o.origins[k])
      && (o.entries[k].kind == VirtualSection ==> MostRecent(doc, n) != -1 || doc[n].page != o.entries[k].pageFrom)
  }

  lemma {:induction false} EntryKept(o: Outline, r: Outline, doc: seq<Placed>, n: nat, m: nat, names: Naming, k: nat)
    requires Extends(o, r) && k < |o.entries| && n <= m <= |doc| && r.entries[k] == o.entries[k]
    requires EntryOk(o, doc, n, names, k) && o.entries[k].kind != References
    requires m == n || (m == n + 1 && Untouched(o, doc, n, k))
    ensures EntryOk(r, doc, m, names, k)
  {
    match o.entries[k].kind {
      case Section => OwnerKept(o, r, o.parents[k], doc, Nearest(doc, o.origins[k], o.entries[k].level));
      case AtomicGroup => OwnerKept(o, r, o.parents[k], doc, MostRecent(doc, o.origins[k]));
      case VirtualSection =>
    }
  }

  lemma {:induction false} EntriesKept(o: Outline, r: Outline, doc: seq<Placed>, n: nat, m: nat, names: Naming)
    requires Extends(o, r) && o.entries <= r.entries && n <= m <= |doc| && Core(o, doc, n, names)
    requires m == n || (m == n + 1 && !IsBody(doc[n]))
    ensures forall k {:trigger EntryOk(r, doc, m, names, k)} :: 0 <= k < |o.entries| ==> EntryOk(r, doc, m, names, k)
  {
    forall k | 0 <= k < |o.entries|
      ensures EntryOk(r, doc, m, names, k)
    {
      EntryKept(o, r, doc, n, m, names, k);
    }
  }

  lemma {:induction false} CoveredKept(o: Outline, r: Outline, doc: seq<Placed>, n: nat, m: nat)
    requires Extends(o, r) && n <= m <= |doc| && Covered(o, doc, n)
    requires m == n || (m == n + 1 && !IsHeading(doc[n]))
    requires forall k :: |o.entries| <= k < |r.entries| ==> r.entries[k].kind != Section
    ensures Covered(r, doc, m)
  {
    forall i | 0 <= i < m && IsHeading(doc[i])
      ensures exists k :: SectionAt(r, k, doc, i)
    {
      var k :| SectionAt(o, k, doc, i);
      OwnerKept(o, r, k, doc, i);
    }
  }

  lemma {:induction false} ChainKept(o: Outline, r: Outline, doc: seq<Placed>, stack: seq<nat>)
    requires Extends(o, r) && Chain(o, doc, stack)
    ensures Chain(r, doc, stack)
  {
    forall q | 0 <= q < |stack|
      ensures Link(r, doc, stack, q)
    {
      assert Link(o, doc, stack, q);
      OwnerKept(o, r, stack[q], doc, o.origins[stack[q]]);
      OwnerKept(o, r, if q == 0 then -1 else stack[q - 1], doc,
                Nearest(doc, o.origins[stack[q]], o.entries[stack[q]].level));
    }
  }

  lemma {:induction false} StackKept(o: Outline, r: Outline, doc: seq<Placed>, n: nat, m: nat)
    requires Extends(o, r) && n <= m <= |doc| && StackOk(o, doc, n)
    requires r.stack == o.stack && r.sawHeading == o.sawHeading
    requires m == n || (m == n + 1 && !IsHeading(doc[n]))
    ensures StackOk(r, doc, m)
  {
    ChainKept(o, r, doc, o.stack);
    OwnerKept(o, r, Top(o), doc, MostRecent(doc, n));
  }

  lemma {:induction false} RunHasNoHeading(doc: seq<Placed>, i: nat, n: nat)
    requires i <= n <= |doc|
    requires forall m :: i <= m < n ==> IsAtomic(doc[m].block.kind)
    ensures MostRecent(doc, n) == MostRecent(doc, i)
  {
    if i < n {
      RunHasNoHeading(doc, i, n - 1);
    }
  }

  lemma {:induction false} FlushedGroup(o: Outline, doc: seq<Placed>, n: nat)
    requires Wf(o) && n <= |doc| && StackOk(o, doc, n) && PendingOk(o, doc, n) && o.run != []
    requires n == |doc| || !IsAtomic(doc[n].block.kind)
    ensures GroupOk(FlushRun(o, n), doc, n, |o.entries|)
  {
    var f := FlushRun(o, n);
    RunHasNoHeading(doc, n - |o.run|, n);
    OwnerKept(o, f, Top(o), doc, MostRecent(doc, n));
  }

  /** A step that adds no section and reads neither heading nor running text keeps the core. */
  lemma {:induction false} CoreKept(o: Outline, r: Outline, doc: seq<Placed>, n: nat, m: nat, names: Naming)
    requires Extends(o, r) && o.entries <= r.entries && n <= m <= |doc| && Core(o, doc, n, names)
    requires m == n || (m == n + 1 && !IsBody(doc[n]) && !IsHeading(doc[n]))
    requires r.stack == o.stack && r.sawHeading == o.sawHeading && r.virtualPages == o.virtualPages
    requires forall k {:trigger EntryOk(r, doc, m, names, k)} :: |o.entries| <= k < |r.entries| ==>
             EntryOk(r, doc, m, names, k)
    requires forall k :: |o.entries| <= k < |r.entries| ==> r.entries[k].kind == AtomicGroup
    requires StreamsOk(r, doc, m)
    ensures Core(r, doc, m, names)
  {
    EntriesKept(o, r, doc, n, m, names);
    CoveredKept(o, r, doc, n, m);
    StackKept(o, r, doc, n, m);
    PagesKept(o, r, doc, n, m);
    forall k | 0 <= k < |r.entries|
      ensures r.entries[k].kind != References && EntryOk(r, doc, m, names, k)
    {
    }
  }

  lemma {:induction false} PagesKept(o: Outline, r: Outline, doc: seq<Placed>, n: nat, m: nat)
    requires Extends(o, r) && o.entries <= r.entries && n <= m <= |doc| && VirtualPagesOk(o, doc, n)
    requires m == n || (m == n + 1 && !IsBody(doc[n]))
    requires r.virtualPages == o.virtualPages
    ensures VirtualPagesOk(r, doc, m)
  {
  }

  lemma {:induction false} FlushExtends(o: Outline, n: nat)
    requires Wf(o) && 0 < |o.run| <= n
    ensures var f := FlushRun(o, n);
            && Extends(o, f) && o.entries <= f.entries && |f.entries| == |o.entries| + 1
            && f.stack == o.stack && f.sawHeading == o.sawHeading && f.virtualPages == o.virtualPages && f.run == []
            && f.references == o.references && f.headerFooter == o.headerFooter && f.warnings == o.warnings
            && f.entries[|o.entries|].kind == AtomicGroup
  {
  }

  /** Closing the pending run, as every non-atomic block and the end of the document do. */
  lemma {:induction false} FlushKeeps(o: Outline, doc: seq<Placed>, n: nat, names: Naming)
    requires Wf(o) && n <= |doc| && Invariant(o, doc, n, names)
    requires n == |doc| || !IsAtomic(doc[n].block.kind)
    ensures Core(FlushRun(o, n), doc, n, names) && FlushRun(o, n).run == []
  {
    if o.run != [] {
      FlushExtends(o, n);
      FlushedGroup(o, doc, n);
      var f := FlushRun(o, n);
      assert EntryOk(f, doc, n, names, |o.entries|);
      CoreKept(o, f, doc, n, n, names);
    }
  }

  lemma {:induction false} ChainPrefix(o: Outline, doc: seq<Placed>, stack: seq<nat>)
    requires Wf(o) && Chain(o, doc, stack) && stack != []
    ensures Chain(o, doc, stack[..|stack| - 1])
  {
    var rest := stack[..|stack| - 1];
    forall p | 0 <= p < |rest|
      ensures Link(o, doc, rest, p)
    {
      assert Link(o, doc, stack, p);
    }
  }

  function TopOrigin(o: Outline, stack: seq<nat>): int
    requires Wf(o) && forall q :: 0 <= q < |stack| ==> stack[q] < |o.entries|
  {
    if stack == [] then -1 else o.origins[stack[|stack| - 1]]
  }

  /** Popping every level that is not smaller leaves the nearest smaller heading on top. */
  lemma {:induction false} PopFinds(o: Outline, doc: seq<Placed>, stack: seq<nat>, level: nat)
    requires Wf(o) && Chain(o, doc, stack)
    ensures var r := PopTo(o.entries, stack, level);
            && Chain(o, doc, r)
            && Owner(o, if r == [] then -1 else r[|r| - 1], doc, Nearest(doc, TopOrigin(o, stack) + 1, level))
  {
    if stack != [] {
      var q := |stack| - 1;
      assert Link(o, doc, stack, q);
      var h := o.origins[stack[q]];
      if o.entries[stack[q]].level >= level {
        var rest := stack[..q];
        ChainPrefix(o, doc, stack);
        PopFinds(o, doc, rest, level);
        assert TopOrigin(o, rest) == Nearest(doc, h, o.entries[stack[q]].level);
        NearestMeaning(doc, h, o.entries[stack[q]].level, TopOrigin(o, rest));
        NearestSkip(doc, TopOrigin(o, rest) + 1, h + 1, level);
      }
    }
  }

  // One block at a time.

  lemma {:induction false} ReadAtomic(o: Outline, doc: seq<Placed>, n: nat, names: Naming)
    requires Wf(o) && n < |doc| && Invariant(o, doc, n, names) && IsAtomic(doc[n].block.kind)
    ensures Invariant(Step(o, n, doc[n], names), doc, n + 1, names)
  {
    var r := o.(run := o.run + [doc[n]]);
    AtomicPending(o, r, doc, n);
    CoreKept(o, r, doc, n, n + 1, names);
  }

  lemma {:induction false} AtomicPending(o: Outline, r: Outline, doc: seq<Placed>, n: nat)
    requires Wf(o) && n < |doc| && PendingOk(o, doc, n) && StreamsOk(o, doc, n) && IsAtomic(doc[n].block.kind)
    requires r == o.(run := o.run + [doc[n]])
    ensures Extends(o, r) && PendingOk(r, doc, n + 1) && StreamsOk(r, doc, n + 1)
  {
  }

  lemma {:induction false} ReadAside(o: Outline, doc: seq<Placed>, n: nat, names: Naming)
    requires Wf(o) && n < |doc| && Core(o, doc, n, names) && o.run == []
    requires doc[n].block.kind == HeaderFooter || doc[n].block.kind == Reference
    ensures Invariant(Step(o, n, doc[n], names), doc, n + 1, names)
  {
    var r := Step(o, n, doc[n], names);
    AsideStreams(o, r, doc, n, names);
    CoreKept(o, r, doc, n, n + 1, names);
  }

  lemma {:induction false} AsideStreams(o: Outline, r: Outline, doc: seq<Placed>, n: nat, names: Naming)
    requires Wf(o) && n < |doc| && StreamsOk(o, doc, n) && o.run == [] && r == Step(o, n, doc[n], names)
    requires doc[n].block.kind == HeaderFooter || doc[n].block.kind == Reference
    ensures Extends(o, r) && r.entries == o.entries && r.stack == o.stack && r.sawHeading == o.sawHeading
    ensures r.virtualPages == o.virtualPages && PendingOk(r, doc, n + 1) && StreamsOk(r, doc, n + 1)
  {
  }

  /** A heading read just now has no text yet. */
  lemma {:induction false} NothingUnder(doc: seq<Placed>, n: nat, h: nat)
    requires n <= |doc| && n <= h + 1
    ensures BodyUnder(doc, n, h) == []
  {
    if n > 0 {
      NothingUnder(doc, n - 1, h);
    }
  }

  lemma {:induction false} PoppedParent(o: Outline, doc: seq<Placed>, n: nat)
    requires Wf(o) && n < |doc| && StackOk(o, doc, n) && IsHeading(doc[n])
    ensures var kept := PopTo(o.entries, o.stack, LevelOf(doc[n]));
            Chain(o, doc, kept)
            && Owner(o, if kept == [] then -1 else kept[|kept| - 1], doc, Nearest(doc, n, LevelOf(doc[n])))
  {
    PopFinds(o, doc, o.stack, LevelOf(doc[n]));
    MostRecentMeaning(doc, n, MostRecent(doc, n));
    NearestSkip(doc, MostRecent(doc, n) + 1, n, LevelOf(doc[n]));
  }

  lemma {:induction false} PushedSection(o: Outline, doc: seq<Placed>, n: nat, names: Naming)
    requires Wf(o) && n < |doc| && StackOk(o, doc, n) && IsHeading(doc[n])
    ensures var r := PushHeading(o, n, doc[n], names.title(TextOf(doc[n].block)));
            Extends(o, r) && SectionOk(r, doc, n + 1, names, |o.entries|)
  {
    var r := PushHeading(o, n, doc[n], names.title(TextOf(doc[n].block)));
    PoppedParent(o, doc, n);
    var kept := PopTo(o.entries, o.stack, LevelOf(doc[n]));
    NewSection(o, r, doc, n, names, if kept == [] then -1 else kept[|kept| - 1]);
  }

  lemma {:induction false} NewSection(o: Outline, r: Outline, doc: seq<Placed>, n: nat, names: Naming, parent: int)
    requires Extends(o, r) && n < |doc| && IsHeading(doc[n]) && Owner(o, parent, doc, Nearest(doc, n, LevelOf(doc[n])))
    requires |r.entries| == |o.entries| + 1 && r.parents[|o.entries|] == parent && r.origins[|o.entries|] == n
    requires r.entries[|o.entries|] ==
             Entry(Section, PathAt(o, parent) + [names.title(TextOf(doc[n].block))], LevelOf(doc[n]), [], doc[n].page,
                   doc[n].page)
    ensures SectionOk(r, doc, n + 1, names, |o.entries|)
  {
    OwnerKept(o, r, parent, doc, Nearest(doc, n, LevelOf(doc[n])));
    NothingUnder(doc, n + 1, n);
  }

  lemma {:induction false} ChainPush(r: Outline, doc: seq<Placed>, kept: seq<nat>, k: nat)
    requires Wf(r) && Chain(r, doc, kept) && k < |r.entries| && SectionAt(r, k, doc, r.origins[k])
    requires Owner(r, if kept == [] then -1 else kept[|kept| - 1], doc, Nearest(doc, r.origins[k], r.entries[k].level))
    ensures Chain(r, doc, kept + [k])
  {
    var stack := kept + [k];
    forall q | 0 <= q < |stack|
      ensures Link(r, doc, stack, q)
    {
      if q < |kept| {
        assert Link(r, doc, kept, q);
      }
    }
  }

  lemma {:induction false} PushedStack(o: Outline, doc: seq<Placed>, n: nat, names: Naming)
    requires Wf(o) && n < |doc| && StackOk(o, doc, n) && IsHeading(doc[n])
    ensures StackOk(PushHeading(o, n, doc[n], names.title(TextOf(doc[n].block))), doc, n + 1)
  {
    var r := PushHeading(o, n, doc[n], names.title(TextOf(doc[n].block)));
    var kept := PopTo(o.entries, o.stack, LevelOf(doc[n]));
    var parent := if kept == [] then -1 else kept[|kept| - 1];
    PoppedParent(o, doc, n);
    PushedSection(o, doc, n, names);
    ChainKept(o, r, doc, kept);
    OwnerKept(o, r, parent, doc, Nearest(doc, n, LevelOf(doc[n])));
    ChainPush(r, doc, kept, |o.entries|);
  }

  lemma {:induction false} HeadingCovered(o: Outline, r: Outline, doc: seq<Placed>, n: nat, names: Naming)
    requires Wf(o) && n < |doc| && Covered(o, doc, n) && IsHeading(doc[n])
    requires forall k :: 0 <= k < |o.entries| && o.entries[k].kind == Section ==> o.origins[k] < n
    requires Extends(o, r) && |r.entries| == |o.entries| + 1 && SectionAt(r, |o.entries|, doc, n)
    ensures Covered(r, doc, n + 1)
  {
    forall i | 0 <= i < n + 1 && IsHeading(doc[i])
      ensures exists k :: SectionAt(r, k, doc, i)
    {
      if i < n {
        var k :| SectionAt(o, k, doc, i);
        OwnerKept(o, r, k, doc, i);
      }
    }
  }

  lemma {:induction false} OriginsBefore(o: Outline, doc: seq<Placed>, n: nat, names: Naming)
    requires Wf(o) && n <= |doc| && EntriesOk(o, doc, n, names)
    ensures forall k :: 0 <= k < |o.entries| && o.entries[k].kind == Section ==> o.origins[k] < n
  {
    forall k | 0 <= k < |o.entries| && o.entries[k].kind == Section
      ensures o.origins[k] < n
    {
      assert EntryOk(o, doc, n, names, k);
    }
  }

  lemma {:induction false} HeadingStreams(o: Outline, r: Outline, doc: seq<Placed>, n: nat, names: Naming)
    requires Wf(o) && n < |doc| && StackOk(o, doc, n) && StreamsOk(o, doc, n) && VirtualPagesOk(o, doc, n)
    requires IsHeading(doc[n]) && o.run == [] && r == PushHeading(o, n, doc[n], names.title(TextOf(doc[n].block)))
    ensures StreamsOk(r, doc, n + 1) && VirtualPagesOk(r, doc, n + 1) && PendingOk(r, doc, n + 1)
    ensures o.entries <= r.entries && |r.entries| == |o.entries| + 1 && r.entries[|o.entries|].kind == Section
  {
    HeadingSkips(o, doc, n);
    hide StackOk, PopTo, SkipsOf, SkipUnder, Nearest, Chain, Owner, MostRecent;
  }

  /** The skip warning of a heading is the one of the definition. */
  lemma {:induction false} HeadingSkips(o: Outline, doc: seq<Placed>, n: nat)
    requires Wf(o) && n < |doc| && StackOk(o, doc, n) && IsHeading(doc[n])
    ensures var popped := o.(stack := PopTo(o.entries, o.stack, LevelOf(doc[n])), sawHeading := true);
            Wf(popped) && SkipsOf(doc, n + 1) == SkipsOf(doc, n) + SkipUnder(popped, LevelOf(doc[n]))
  {
    PoppedParent(o, doc, n);
    hide StackOk, PopTo, Nearest, Chain, MostRecent;
  }

  lemma {:induction false} ReadHeading(o: Outline, doc: seq<Placed>, n: nat, names: Naming)
    requires Wf(o) && n < |doc| && Core(o, doc, n, names) && o.run == []
    requires IsHeading(doc[n])
    ensures Invariant(PushHeading(o, n, doc[n], names.title(TextOf(doc[n].block))), doc, n + 1, names)
  {
    hide SectionOk, GroupOk, VirtualOk, ReferencesOk, Link, Covered, Nearest, MostRecent;
    var r := PushHeading(o, n, doc[n], names.title(TextOf(doc[n].block)));
    PushedSection(o, doc, n, names);
    PushedStack(o, doc, n, names);
    HeadingStreams(o, r, doc, n, names);
    EntriesKept(o, r, doc, n, n + 1, names);
    OriginsBefore(o, doc, n, names);
    HeadingCovered(o, r, doc, n, names);
    assert EntryOk(r, doc, n + 1, names, |o.entries|);
  }

  lemma {:induction false} ExtendStack(o: Outline, t: nat, doc: seq<Placed>, n: nat)
    requires Wf(o) && n < |doc| && StackOk(o, doc, n) && Covered(o, doc, n) && t < |o.entries| && IsBody(doc[n])
    ensures Extends(o, Extend(o, t, doc[n]))
    ensures StackOk(Extend(o, t, doc[n]), doc, n + 1) && Covered(Extend(o, t, doc[n]), doc, n + 1)
  {
    StackKept(o, Extend(o, t, doc[n]), doc, n, n + 1);
    CoveredKept(o, Extend(o, t, doc[n]), doc, n, n + 1);
  }

  lemma {:induction false} OneSectionPerHeading(o: Outline, doc: seq<Placed>, n: nat, k: nat, t: nat)
    requires Wf(o) && n <= |doc| && Covered(o, doc, n) && k < |o.entries| && t < |o.entries| && k != t
    requires o.entries[k].kind == Section && o.entries[t].kind == Section
    ensures o.origins[k] != o.origins[t]
  {
    if k < t {
      assert o.origins[k] < o.origins[t];
    }
  }

  /** The section of the most recent heading takes the text and stays right. */
  lemma {:induction false} ExtendedSection(o: Outline, doc: seq<Placed>, n: nat, names: Naming)
    requires Wf(o) && n < |doc| && IsBody(doc[n]) && StackOk(o, doc, n) && o.stack != []
    requires EntryOk(o, doc, n, names, Top(o))
    ensures EntryOk(Extend(o, Top(o), doc[n]), doc, n + 1, names, Top(o))
  {
    var r, k := Extend(o, Top(o), doc[n]), Top(o);
    assert SectionAt(o, k, doc, MostRecent(doc, n));
    assert Extends(o, r);
    OwnerKept(o, r, o.parents[k], doc, Nearest(doc, o.origins[k], o.entries[k].level));
    assert r.entries[k].blocks[..|r.entries[k].blocks| - 1] == o.entries[k].blocks;
  }

  /** Running text after the first heading goes to the section of the most recent one. */
  lemma {:induction false} ReadUnderHeading(o: Outline, doc: seq<Placed>, n: nat, names: Naming)
    requires Wf(o) && n < |doc| && Core(o, doc, n, names) && o.run == []
    requires IsBody(doc[n]) && o.sawHeading
    ensures Invariant(AddBody(o, n, doc[n], names.pageLabel), doc, n + 1, names)
  {
    var t, m := Top(o), n + 1;
    var r := Extend(o, t, doc[n]);
    ExtendStack(o, t, doc, n);
    EntriesUnderHeading(o, doc, n, names);
    UnderHeadingPages(o, r, doc, n);
    BodyStreams(o, r, doc, n);
    hide EntriesOk, EntryOk, Covered, StackOk, VirtualPagesOk, Extends, StreamsOk, PendingOk;
    assert Core(r, doc, n + 1, names);
  }

  lemma {:induction false} EntriesUnderHeading(o: Outline, doc: seq<Placed>, n: nat, names: Naming)
    requires Wf(o) && n < |doc| && Core(o, doc, n, names) && IsBody(doc[n]) && o.sawHeading
    ensures o.stack != [] && EntriesOk(Extend(o, Top(o), doc[n]), doc, n + 1, names)
  {
    var t, m := Top(o), n + 1;
    var r := Extend(o, t, doc[n]);
    ExtendStack(o, t, doc, n);
    forall k | 0 <= k < |o.entries|
      ensures EntryOk(r, doc, m, names, k)
    {
      assert EntryOk(o, doc, n, names, k);
      if k == t {
        ExtendedSection(o, doc, n, names);
      } else {
        if o.entries[k].kind == Section {
          OneSectionPerHeading(o, doc, n, k, t);
        }
        EntryKept(o, r, doc, n, m, names, k);
      }
    }
  }

  lemma {:induction false} UnderHeadingPages(o: Outline, r: Outline, doc: seq<Placed>, n: nat)
    requires Extends(o, r) && n < |doc| && VirtualPagesOk(o, doc, n) && MostRecent(doc, n) >= 0
    requires r.virtualPages == o.virtualPages
    requires forall k :: 0 <= k < |o.entries| ==> r.entries[k].pageFrom == o.entries[k].pageFrom
    ensures VirtualPagesOk(r, doc, n + 1)
  {
  }

  /** Running text before every heading goes to the virtual section of its page. */
  lemma {:induction false} ReadPreamble(o: Outline, doc: seq<Placed>, n: nat, names: Naming)
    requires Wf(o) && n < |doc| && Core(o, doc, n, names) && o.run == []
    requires IsBody(doc[n]) && !o.sawHeading && doc[n].page in o.virtualPages
    ensures Invariant(AddBody(o, n, doc[n], names.pageLabel), doc, n + 1, names)
  {
    var r := Extend(o, o.virtualPages[doc[n].page], doc[n]);
    ExtendStack(o, o.virtualPages[doc[n].page], doc, n);
    PreambleEntries(o, doc, n, names);
    PreamblePages(o, doc, n);
    BodyStreams(o, r, doc, n);
    hide EntriesOk, EntryOk, Covered, StackOk, VirtualPagesOk, Extends, StreamsOk, PendingOk;
    assert Core(r, doc, n + 1, names);
  }

  lemma {:induction false} PreamblePages(o: Outline, doc: seq<Placed>, n: nat)
    requires Wf(o) && n < |doc| && VirtualPagesOk(o, doc, n) && doc[n].page in o.virtualPages
    ensures VirtualPagesOk(Extend(o, o.virtualPages[doc[n].page], doc[n]), doc, n + 1)
  {
  }

  lemma {:induction false} PreambleEntries(o: Outline, doc: seq<Placed>, n: nat, names: Naming)
    requires Wf(o) && n < |doc| && Core(o, doc, n, names)
    requires IsBody(doc[n]) && !o.sawHeading && doc[n].page in o.virtualPages
    ensures EntriesOk(Extend(o, o.virtualPages[doc[n].page], doc[n]), doc, n + 1, names)
  {
    var t, m := o.virtualPages[doc[n].page], n + 1;
    var r := Extend(o, t, doc[n]);
    ExtendStack(o, t, doc, n);
    forall k | 0 <= k < |o.entries|
      ensures EntryOk(r, doc, m, names, k)
    {
      assert EntryOk(o, doc, n, names, k);
      if k == t {
        assert r.entries[k].blocks[..|r.entries[k].blocks| - 1] == o.entries[k].blocks;
        assert VirtualOk(r, doc, m, names, k);
      } else {
        EntryKept(o, r, doc, n, m, names, k);
      }
    }
  }

  lemma {:induction false} AddedPage(o: Outline, n: nat, p: Placed, names: Naming) returns (r: Outline)
    requires Wf(o) && !o.sawHeading && p.page !in o.virtualPages
    ensures r == AddBody(o, n, p, names.pageLabel) && Extends(o, r)
    ensures r.entries == o.entries + [Entry(VirtualSection, [names.pageLabel(p.page)], 0, [p], p.page, p.page)]
    ensures r == o.(entries := r.entries, parents := o.parents + [-1], origins := o.origins + [n],
                    virtualPages := o.virtualPages[p.page := |o.entries|])
  {
    r := AddBody(o, n, p, names.pageLabel);
    assert [] + [p] == [p];
  }

  lemma {:induction false} FirstOfPageEntries(o: Outline, r: Outline, doc: seq<Placed>, n: nat, m: nat, names: Naming)
    requires Wf(o) && n < |doc| && m == n + 1 && Core(o, doc, n, names)
    requires IsBody(doc[n]) && MostRecent(doc, n) == -1 && doc[n].page !in o.virtualPages
    requires Extends(o, r) && o.entries <= r.entries && |r.entries| == |o.entries| + 1
    requires EntryOk(r, doc, m, names, |o.entries|)
    ensures EntriesOk(r, doc, m, names)
  {
    hide EntryOk;
    forall k | 0 <= k < |o.entries|
      ensures EntryOk(r, doc, m, names, k)
    {
      FirstOfPageEntry(o, r, doc, n, m, names, k);
    }
  }

  lemma {:induction false} FirstOfPageEntry(o: Outline, r: Outline, doc: seq<Placed>, n: nat, m: nat, names: Naming,
                                            k: nat)
    requires Wf(o) && n < |doc| && m == n + 1 && k < |o.entries| && EntryOk(o, doc, n, names, k)
    requires o.entries[k].kind != References && MostRecent(doc, n) == -1 && doc[n].page !in o.virtualPages
    requires Extends(o, r) && o.entries <= r.entries
    ensures EntryOk(r, doc, m, names, k)
  {
    EntryKept(o, r, doc, n, m, names, k);
  }

  lemma {:induction false} ReadFirstOfPage(o: Outline, doc: seq<Placed>, n: nat, names: Naming)
    requires Wf(o) && n < |doc| && Core(o, doc, n, names) && o.run == []
    requires IsBody(doc[n]) && !o.sawHeading && doc[n].page !in o.virtualPages
    ensures Invariant(AddBody(o, n, doc[n], names.pageLabel), doc, n + 1, names)
  {
    hide EntryOk, MostRecent, PreambleOn, Covered, Link;
    var r := AddedPage(o, n, doc[n], names);
    FirstOfPage(r, doc, n, names, |o.entries|, doc[n].page);
    FirstOfPageEntries(o, r, doc, n, n + 1, names);
    CoveredKept(o, r, doc, n, n + 1);
    StackKept(o, r, doc, n, n + 1);
    FirstOfPagePages(o, r, doc, n);
    BodyStreams(o, r, doc, n);
    assert Core(r, doc, n + 1, names);
  }

  lemma {:induction false} BodyStreams(o: Outline, r: Outline, doc: seq<Placed>, n: nat)
    requires Wf(o) && Wf(r) && n < |doc| && StreamsOk(o, doc, n) && IsBody(doc[n])
    requires r.run == [] && r.references == o.references && r.headerFooter == o.headerFooter && r.warnings == o.warnings
    ensures StreamsOk(r, doc, n + 1) && PendingOk(r, doc, n + 1)
  {
  }

  lemma {:induction false} FirstOfPagePages(o: Outline, r: Outline, doc: seq<Placed>, n: nat)
    requires Extends(o, r) && n < |doc| && VirtualPagesOk(o, doc, n) && o.entries <= r.entries
    requires r.virtualPages == o.virtualPages[doc[n].page := |o.entries|] && |o.entries| < |r.entries|
    requires r.entries[|o.entries|].kind == VirtualSection && r.entries[|o.entries|].pageFrom == doc[n].page
    ensures VirtualPagesOk(r, doc, n + 1)
  {
  }

  lemma {:induction false} FirstOfPage(r: Outline, doc: seq<Placed>, n: nat, names: Naming, k: nat, page: nat)
    requires Wf(r) && n < |doc| && IsBody(doc[n]) && MostRecent(doc, n) == -1 && doc[n].page == page
    requires PreambleOn(doc, n, page) == []
    requires |r.entries| == k + 1 && r.parents[k] == -1 && page in r.virtualPages && r.virtualPages[page] == k
    requires r.entries[k] == Entry(VirtualSection, [names.pageLabel(page)], 0, [doc[n]], page, page)
    ensures EntryOk(r, doc, n + 1, names, k)
  {
    assert [doc[n]][..0] == [];
    assert MaxPage(page, [doc[n]]) == page;
  }

  lemma {:induction false} StepKeeps(f: Outline, doc: seq<Placed>, n: nat, names: Naming)
    requires Wf(f) && n < |doc| && Core(f, doc, n, names) && f.run == []
    requires !IsAtomic(doc[n].block.kind)
    ensures Invariant(Step(f, n, doc[n], names), doc, n + 1, names)
  {
    var p := doc[n];
    if p.block.kind == HeaderFooter || p.block.kind == Reference {
      ReadAside(f, doc, n, names);
    } else if IsHeading(p) {
      ReadHeading(f, doc, n, names);
    } else if f.sawHeading {
      ReadUnderHeading(f, doc, n, names);
    } else if p.page in f.virtualPages {
      ReadPreamble(f, doc, n, names);
    } else {
      ReadFirstOfPage(f, doc, n, names);
    }
  }

  lemma {:induction false} FlushFirst(o: Outline, n: nat, p: Placed, names: Naming)
    requires Wf(o) && |o.run| <= n && !IsAtomic(p.block.kind)
    ensures FlushRun(o, n).run == [] && Step(o, n, p, names) == Step(FlushRun(o, n), n, p, names)
  {
  }

  lemma {:induction false} StepInvariant(o: Outline, r: Outline, doc: seq<Placed>, n: nat, names: Naming)
    requires Wf(o) && n < |doc| && Invariant(o, doc, n, names) && r == Step(o, n, doc[n], names)
    ensures Wf(r) && Invariant(r, doc, n + 1, names)
  {
    if IsAtomic(doc[n].block.kind) {
      ReadAtomic(o, doc, n, names);
    } else {
      FlushKeeps(o, doc, n, names);
      FlushFirst(o, n, doc[n], names);
      StepKeeps(FlushRun(o, n), doc, n, names);
    }
  }

  lemma {:induction false} EmptyInvariant(doc: seq<Placed>, names: Naming)
    ensures Invariant(EMPTY, doc, 0, names)
  {
    hide EntryOk, Link, SectionAt;
    assert EMPTY.entries == [] && EMPTY.stack == [] && EMPTY.run == [] && EMPTY.virtualPages == map[];
    assert EntriesOk(EMPTY, doc, 0, names) && Covered(EMPTY, doc, 0);
    assert Chain(EMPTY, doc, []);
    assert StackOk(EMPTY, doc, 0) && StreamsOk(EMPTY, doc, 0) && PendingOk(EMPTY, doc, 0);
    assert VirtualPagesOk(EMPTY, doc, 0);
  }

  lemma {:induction false} RunUnfold(doc: seq<Placed>, n: nat, names: Naming)
    requires 0 < n <= |doc|
    ensures Run(doc, n, names) == Step(Run(doc, n - 1, names), n - 1, doc[n - 1], names)
  {
  }

  lemma {:induction false} RunStarts(doc: seq<Placed>, names: Naming)
    ensures Run(doc, 0, names) == EMPTY
  {
  }

  lemma {:induction false} RunKeeps(doc: seq<Placed>, n: nat, names: Naming)
    requires n <= |doc|
    ensures Invariant(Run(doc, n, names), doc, n, names)
  {
    hide *;
    RunStarts(doc, names);
    if n == 0 {
      EmptyInvariant(doc, names);
    } else {
      RunKeeps(doc, n - 1, names);
      RunUnfold(doc, n, names);
      var o, r := Run(doc, n - 1, names), Run(doc, n, names);
      StepInvariant(o, r, doc, n - 1, names);
    }
  }
}
