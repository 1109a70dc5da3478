/** The section tree of a document as a flat list of entries with parent positions, built one
    block at a time: the specification that the mutable tree of `TreeBuilder` refines. */
module Outline {
  import opened Seqs
  import opened DocumentModel

  datatype NodeKind = Section | References | VirtualSection | AtomicGroup

  /** A frozen node. */
  datatype Tree = Tree(
    kind: NodeKind, path: seq<string>, level: nat, blockIds: seq<string>,
    pageFrom: nat, pageTo: nat, text: string, children: seq<Tree>)

  /** A frozen document tree. A skip is the pair (parent level, child level) of the warning text. */
  datatype DocumentTree = DocumentTree(nodes: seq<Tree>, headerFooterIds: seq<string>, warnings: seq<(nat, nat)>)

  datatype Entry = Entry(kind: NodeKind, path: seq<string>, level: nat, blocks: seq<Placed>, pageFrom: nat, pageTo: nat)

  /** `parents[k]` is the position of the parent entry, or -1 for a root; `origins[k]` is the
      position in the document of the heading, or of the first block, that made entry `k`. */
  datatype Outline = Outline(
    entries: seq<Entry>, parents: seq<int>, origins: seq<nat>,
    stack: seq<nat>, sawHeading: bool, virtualPages: map<nat, nat>,
    run: seq<Placed>, references: seq<Placed>, headerFooter: seq<Placed>,
    warnings: seq<(nat, nat)>)

  const EMPTY := Outline([], [], [], [], false, map[], [], [], [], [])

  ghost predicate Wf(o: Outline) {
    && |o.entries| == |o.parents| == |o.origins|
    && (forall k :: 0 <= k < |o.parents| ==> -1 <= o.parents[k] < k)
    && (forall q :: 0 <= q < |o.stack| ==> o.stack[q] < |o.entries|)
    && (forall page :: page in o.virtualPages ==> o.virtualPages[page] < |o.entries|)
  }

  function Top(o: Outline): int {
    if o.stack == [] then -1 else o.stack[|o.stack| - 1]
  }

  function TopPath(o: Outline): seq<string>
    requires Wf(o)
  {
    if o.stack == [] then [] else o.entries[Top(o)].path
  }

  /** A new entry under the entry at `parent`. */
  function Grow(o: Outline, e: Entry, parent: int, origin: nat): (r: Outline)
    requires Wf(o) && -1 <= parent < |o.entries|
    ensures Wf(r)
  {
    o.(entries := o.entries + [e], parents := o.parents + [parent], origins := o.origins + [origin])
  }

  /** Append one block of running text to the entry at `k`. */
  function Extend(o: Outline, k: nat, p: Placed): (r: Outline)
    requires Wf(o) && k < |o.entries|
    ensures Wf(r)
  {
    var e := o.entries[k];
    o.(entries := o.entries[k := e.(blocks := e.blocks + [p], pageTo := Max(e.pageTo, p.page))])
  }

  function RunEntry(o: Outline): Entry
    requires Wf(o) && o.run != []
  {
    Entry(AtomicGroup, TopPath(o), 0, o.run, MinPage(o.run), MaxPage(0, o.run))
  }

  /** Close the pending run of atomic blocks; `n` blocks have been read. */
  function FlushRun(o: Outline, n: nat): (r: Outline)
    requires Wf(o) && |o.run| <= n
    ensures Wf(r)
  {
    if o.run == [] then o
    else Grow(o, RunEntry(o), Top(o), n - |o.run|).(run := [])
  }

  function PopTo(entries: seq<Entry>, stack: seq<nat>, level: nat): (r: seq<nat>)
    requires forall q :: 0 <= q < |stack| ==> stack[q] < |entries|
    ensures r <= stack
  {
    if stack == [] || entries[stack[|stack| - 1]].level < level then stack
    else PopTo(entries, stack[..|stack| - 1], level)
  }

  /** The warning for a heading of level `level` under the top of the stack. */
  function SkipUnder(o: Outline, level: nat): seq<(nat, nat)>
    requires Wf(o)
  {
    if o.stack != [] && level > o.entries[Top(o)].level + 1 then [(o.entries[Top(o)].level, level)] else []
  }

  function PushHeading(o: Outline, n: nat, p: Placed, title: string): (r: Outline)
    requires Wf(o) && IsHeading(p)
    ensures Wf(r)
  {
    var level := LevelOf(p);
    var popped := o.(stack := PopTo(o.entries, o.stack, level), sawHeading := true);
    var e := Entry(Section, TopPath(popped) + [title], level, [], p.page, p.page);
    Grow(popped, e, Top(popped), n).(stack := popped.stack + [|o.entries|],
                                     warnings := o.warnings + SkipUnder(popped, level))
  }

  /** The path of a page that precedes every heading. Its label is `virtual-page-{n}`. */
  function VirtualPath(page: nat, pageLabel: nat -> string): seq<string> {
    [pageLabel(page)]
  }

  function AddBody(o: Outline, n: nat, p: Placed, pageLabel: nat -> string): (r: Outline)
    requires Wf(o)
    ensures Wf(r)
  {
    if !o.sawHeading then
      if p.page in o.virtualPages then Extend(o, o.virtualPages[p.page], p)
      else
        var e := Entry(VirtualSection, VirtualPath(p.page, pageLabel), 0, [], p.page, p.page);
        var grown := Grow(o, e, -1, n).(virtualPages := o.virtualPages[p.page := |o.entries|]);
        Extend(grown, |o.entries|, p)
    else if o.stack != [] then Extend(o, Top(o), p)
    else o
  }

  /** The opaque text functions the builder uses: title normalisation and virtual page labels. */
  datatype Naming = Naming(title: string -> string, pageLabel: nat -> string)

  function Step(o: Outline, n: nat, p: Placed, names: Naming): (r: Outline)
    requires Wf(o) && |o.run| <= n
    ensures Wf(r) && |r.run| <= n + 1
  {
    if IsAtomic(p.block.kind) then o.(run := o.run + [p])
    else
      var f := FlushRun(o, n);
      if p.block.kind == HeaderFooter then f.(headerFooter := f.headerFooter + [p])
      else if p.block.kind == Reference then f.(references := f.references + [p])
      else if IsHeading(p) then PushHeading(f, n, p, names.title(TextOf(p.block)))
      else AddBody(f, n, p, names.pageLabel)
  }

  /** The outline after the first `n` blocks. */
  function Run(doc: seq<Placed>, n: nat, names: Naming): (r: Outline)
    requires n <= |doc|
    ensures Wf(r) && |r.run| <= n
  {
    if n == 0 then EMPTY else Step(Run(doc, n - 1, names), n - 1, doc[n - 1], names)
  }

  function Finish(o: Outline, n: nat): (r: Outline)
    requires Wf(o) && |o.run| <= n
    ensures Wf(r)
  {
    var f := FlushRun(o, n);
    if f.references == [] then f
    else
      Grow(f, Entry(References, ["references"], 0, f.references, MinPage(f.references), MaxPage(0, f.references)), -1,
           n)
  }

  function Complete(doc: seq<Placed>, names: Naming): (r: Outline)
    ensures Wf(r)
  {
    Finish(Run(doc, |doc|, names), |doc|)
  }

  // The frozen tree of an outline.

  function ChildrenFrom(parents: seq<int>, k: int, j: nat): (r: seq<nat>)
    requires j <= |parents|
    requires forall i :: 0 <= i < |parents| ==> -1 <= parents[i] < i
    ensures forall i :: 0 <= i < |r| ==> Max(k + 1, j) <= r[i] < |parents| && parents[r[i]] == k
    decreases |parents| - j
  {
    if j == |parents| then []
    else (if parents[j] == k then [j] else []) + ChildrenFrom(parents, k, j + 1)
  }

  /** The entries whose parent is `k`, in order; `k` is -1 for the roots. */
  function ChildrenOf(o: Outline, k: int): (r: seq<nat>)
    requires Wf(o)
    ensures forall i :: 0 <= i < |r| ==> k < r[i] < |o.entries| && o.parents[r[i]] == k
  {
    ChildrenFrom(o.parents, k, 0)
  }

  function Frozen(o: Outline, k: nat): Tree
    requires Wf(o) && k < |o.entries|
    decreases |o.entries| - k, 0
  {
    var e := o.entries[k];
    Tree(e.kind, e.path, e.level, Ids(e.blocks), e.pageFrom, e.pageTo,
         Join("\n", Texts(e.blocks)), FrozenAll(o, ChildrenOf(o, k), k))
  }

  function FrozenAll(o: Outline, ks: seq<nat>, above: int): (r: seq<Tree>)
    requires Wf(o) && above >= -1
    requires forall i :: 0 <= i < |ks| ==> above < ks[i] < |o.entries|
    ensures |r| == |ks| && forall i :: 0 <= i < |ks| ==> r[i] == Frozen(o, ks[i])
    decreases |o.entries| - above - 1, |ks| + 1
  {
    if ks == [] then [] else [Frozen(o, ks[0])] + FrozenAll(o, ks[1..], above)
  }

  function FrozenForest(o: Outline): seq<Tree>
    requires Wf(o)
  {
    FrozenAll(o, ChildrenOf(o, -1), -1)
  }

  function FrozenDocument(o: Outline): DocumentTree
    requires Wf(o)
  {
    DocumentTree(FrozenForest(o), Ids(o.headerFooter), o.warnings)
  }
}
