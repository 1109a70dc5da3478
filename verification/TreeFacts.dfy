/** The finished tree: nothing lost, nothing repeated, levels strictly increasing downwards. */
module TreeFacts {
  import opened Seqs
  import opened DocumentModel
  import opened Outline
  import opened OutlineFacts

  // Conservation of block ids.

  lemma {:induction false} EntryIdsSnoc(es: seq<Entry>, e: Entry)
    ensures EntryIds(es + [e]) == EntryIds(es) + multiset(Ids(e.blocks))
  {
    assert (es + [e])[..|es|] == es;
  }

  lemma {:induction false} EntryIdsNone(a: seq<Entry>)
    ensures EntryIds(a + []) == EntryIds(a) + EntryIds([])
  {
    assert a + [] == a;
  }

  lemma {:induction false} EntryIdsConcat(a: seq<Entry>, b: seq<Entry>)
    ensures EntryIds(a + b) == EntryIds(a) + EntryIds(b)
  {
    hide *;
    if b == [] {
      EntryIdsNone(a);
    } else {
      var init, last := b[..|b| - 1], b[|b| - 1];
      EntryIdsConcat(a, init);
      SnocConcat(a, b);
      EntryIdsSnoc(a + init, last);
      EntryIdsSnoc(init, last);
      MultisetAssoc(EntryIds(a), EntryIds(init), multiset(Ids(last.blocks)));
    }
  }

  lemma {:induction false} EntryIdsReplace(es: seq<Entry>, k: nat, e: Entry, p: Placed)
    requires k < |es| && e.blocks == es[k].blocks + [p]
    ensures EntryIds(es[k := e]) == EntryIds(es) + multiset{p.block.id}
  {
    var before, after := es[..k], es[k + 1..];
    assert es == before + [es[k]] + after && es[k := e] == before + [e] + after;
    EntryIdsConcat(before + [es[k]], after);
    EntryIdsConcat(before + [e], after);
    EntryIdsSnoc(before, es[k]);
    EntryIdsSnoc(before, e);
    IdsAppend(es[k].blocks, [p]);
    assert Ids([p]) == [p.block.id];
  }

  function Held(o: Outline): multiset<string> {
    EntryIds(o.entries) + multiset(Ids(o.run)) + multiset(Ids(o.references))
  }

  lemma {:induction false} FlushHolds(o: Outline, n: nat)
    requires Wf(o) && |o.run| <= n
    ensures Held(FlushRun(o, n)) == Held(o)
  {
    if o.run != [] {
      EntryIdsSnoc(o.entries, RunEntry(o));
    }
  }

  lemma {:induction false} ExtendHolds(o: Outline, k: nat, p: Placed)
    requires Wf(o) && k < |o.entries|
    ensures Held(Extend(o, k, p)) == Held(o) + multiset{p.block.id}
  {
    EntryIdsReplace(o.entries, k, Extend(o, k, p).entries[k], p);
  }

  lemma {:induction false} NewEntryHolds(o: Outline, r: Outline, e: Entry)
    requires r.entries == o.entries + [e] && r.run == o.run && r.references == o.references
    ensures Held(r) == Held(o) + multiset(Ids(e.blocks))
  {
    EntryIdsSnoc(o.entries, e);
  }

  lemma {:induction false} BodyHolds(o: Outline, n: nat, p: Placed, names: Naming)
    requires Wf(o) && (o.sawHeading ==> o.stack != [])
    ensures Held(AddBody(o, n, p, names.pageLabel)) == Held(o) + multiset{p.block.id}
  {
    if o.sawHeading {
      ExtendHolds(o, Top(o), p);
    } else if p.page in o.virtualPages {
      ExtendHolds(o, o.virtualPages[p.page], p);
    } else {
      var r := AddedPage(o, n, p, names);
      NewEntryHolds(o, r, r.entries[|o.entries|]);
      assert Ids([p]) == [p.block.id];
    }
  }

  lemma {:induction false} HeadingHolds(o: Outline, n: nat, p: Placed, title: string)
    requires Wf(o) && IsHeading(p)
    ensures Held(PushHeading(o, n, p, title)) == Held(o)
  {
    var r := PushHeading(o, n, p, title);
    NewEntryHolds(o, r, r.entries[|o.entries|]);
  }

  function Weight(p: Placed): multiset<string> {
    if IsHeading(p) || p.block.kind == HeaderFooter then multiset{} else multiset{p.block.id}
  }

  lemma {:induction false} SettledStepHolds(f: Outline, n: nat, p: Placed, names: Naming)
    requires Wf(f) && f.run == [] && (f.sawHeading ==> f.stack != []) && !IsAtomic(p.block.kind)
    ensures Held(Step(f, n, p, names)) == Held(f) + Weight(p)
  {
    if p.block.kind == HeaderFooter {
    } else if p.block.kind == Reference {
      IdsAppend(f.references, [p]);
      assert Ids([p]) == [p.block.id];
    } else if IsHeading(p) {
      HeadingHolds(f, n, p, names.title(TextOf(p.block)));
    } else {
      BodyHolds(f, n, p, names);
    }
  }

  lemma {:induction false} StepHolds(o: Outline, n: nat, p: Placed, names: Naming)
    requires Wf(o) && |o.run| <= n && (o.sawHeading ==> o.stack != [])
    ensures Held(Step(o, n, p, names)) == Held(o) + Weight(p)
  {
    if IsAtomic(p.block.kind) {
      IdsAppend(o.run, [p]);
      assert Ids([p]) == [p.block.id];
    } else {
      FlushHolds(o, n);
      FlushFirst(o, n, p, names);
      SettledStepHolds(FlushRun(o, n), n, p, names);
    }
  }

  lemma {:induction false} RunStack(doc: seq<Placed>, n: nat, names: Naming)
    requires n <= |doc|
    ensures Run(doc, n, names).sawHeading ==> Run(doc, n, names).stack != []
  {
    RunKeeps(doc, n, names);
  }

  lemma {:induction false} IndexedStep(doc: seq<Placed>, n: nat)
    requires 0 < n <= |doc|
    ensures IndexedIds(doc, n) == IndexedIds(doc, n - 1) + Weight(doc[n - 1])
  {
  }

  lemma {:induction false} NothingHeld(doc: seq<Placed>, names: Naming)
    ensures Held(Run(doc, 0, names)) == IndexedIds(doc, 0)
  {
  }

  lemma {:induction false} RunHolds(doc: seq<Placed>, n: nat, names: Naming)
    requires n <= |doc|
    ensures Held(Run(doc, n, names)) == IndexedIds(doc, n)
  {
    hide *;
    if n == 0 {
      NothingHeld(doc, names);
    } else {
      RunHolds(doc, n - 1, names);
      RunStack(doc, n - 1, names);
      StepHolds(Run(doc, n - 1, names), n - 1, doc[n - 1], names);
      RunUnfold(doc, n, names);
      IndexedStep(doc, n);
    }
  }

  /** The entries hold every indexed block as often as the document does, and nothing else. */
  lemma {:induction false} CompleteHolds(doc: seq<Placed>, names: Naming)
    ensures EntryIds(Complete(doc, names).entries) == IndexedIds(doc, |doc|)
  {
    var o := Run(doc, |doc|, names);
    RunHolds(doc, |doc|, names);
    FlushHolds(o, |doc|);
    FinishHolds(o, |doc|);
  }

  lemma {:induction false} FinishHolds(o: Outline, n: nat)
    requires Wf(o) && |o.run| <= n
    ensures EntryIds(Finish(o, n).entries) == Held(FlushRun(o, n))
  {
    var f := FlushRun(o, n);
    if f.references != [] {
      EntryIdsSnoc(f.entries, Finish(o, n).entries[|f.entries|]);
    }
  }

  // The finished outline meets the definition.

  /** Every entry is what its kind calls for, sections match the headings one to one, the skip
      warnings are exactly those of the definition, and header/footer blocks are set aside in order. */
  ghost predicate Faithful(o: Outline, doc: seq<Placed>, names: Naming) {
    && Wf(o) && EntriesOk(o, doc, |doc|, names) && Covered(o, doc, |doc|)
    && o.warnings == SkipsOf(doc, |doc|) && o.headerFooter == OfKind(doc, |doc|, HeaderFooter)
  }

  lemma {:induction false} CompleteFaithful(doc: seq<Placed>, names: Naming)
    ensures Faithful(Complete(doc, names), doc, names)
  {
    var n := |doc|;
    var o := Run(doc, n, names);
    RunKeeps(doc, n, names);
    FlushKeeps(o, doc, n, names);
    FinishFaithful(FlushRun(o, n), Complete(doc, names), doc, names);
  }

  lemma {:induction false} FinishExtends(f: Outline, c: Outline, n: nat)
    requires Wf(f) && f.run == [] && c == Finish(f, n)
    ensures Extends(f, c) && f.entries <= c.entries && |c.entries| <= |f.entries| + 1
    ensures c.warnings == f.warnings && c.headerFooter == f.headerFooter
    ensures |c.entries| > |f.entries| ==> f.references != [] && c.entries[|f.entries|].kind == References
  {
  }

  lemma {:induction false} FinishFaithful(f: Outline, c: Outline, doc: seq<Placed>, names: Naming)
    requires Wf(f) && Core(f, doc, |doc|, names) && f.run == [] && c == Finish(f, |doc|)
    ensures Faithful(c, doc, names)
  {
    FinishExtends(f, c, |doc|);
    EntriesKept(f, c, doc, |doc|, |doc|, names);
    CoveredKept(f, c, doc, |doc|, |doc|);
    if f.references != [] {
      assert ReferencesOk(c, doc, |doc|, |f.entries|);
      assert EntryOk(c, doc, |doc|, names, |f.entries|);
    }
  }

  /** Only sections have children. */
  ghost predicate ParentsAreSections(o: Outline)
    requires Wf(o)
  {
    forall k :: 0 <= k < |o.entries| && o.parents[k] >= 0 ==>
      && o.entries[k].kind in {Section, AtomicGroup} && o.entries[o.parents[k]].kind == Section
  }

  lemma {:induction false} FaithfulParents(o: Outline, doc: seq<Placed>, names: Naming)
    requires Faithful(o, doc, names)
    ensures ParentsAreSections(o)
  {
    forall k | 0 <= k < |o.entries| && o.parents[k] >= 0
      ensures o.entries[k].kind in {Section, AtomicGroup} && o.entries[o.parents[k]].kind == Section
    {
      assert EntryOk(o, doc, |doc|, names, k);
    }
  }

  // Shape of the frozen tree.

  /** Down every branch levels strictly increase, paths grow by one title, and only sections branch. */
  ghost predicate WellBranched(t: Tree) {
    && (t.kind != Section ==> t.children == [])
    && (forall i :: 0 <= i < |t.children| ==>
          var c := t.children[i];
          && WellBranched(c)
          && (c.kind == Section || c.kind == AtomicGroup)
          && (c.kind == Section ==> t.level < c.level && |c.path| == |t.path| + 1 && t.path <= c.path)
          && (c.kind == AtomicGroup ==> c.path == t.path))
  }

  lemma {:induction false} ChildOf(o: Outline, doc: seq<Placed>, names: Naming, k: nat, c: nat)
    requires Faithful(o, doc, names) && k < c < |o.entries| && o.parents[c] == k
    ensures o.entries[k].kind == Section
    ensures o.entries[c].kind == Section || o.entries[c].kind == AtomicGroup
    ensures o.entries[c].kind == Section ==>
              && o.entries[k].level < o.entries[c].level
              && |o.entries[c].path| == |o.entries[k].path| + 1 && o.entries[k].path <= o.entries[c].path
    ensures o.entries[c].kind == AtomicGroup ==> o.entries[c].path == o.entries[k].path
  {
    assert EntryOk(o, doc, |doc|, names, c);
  }

  lemma {:induction false} FrozenBranches(o: Outline, doc: seq<Placed>, names: Naming, k: nat)
    requires Faithful(o, doc, names) && k < |o.entries|
    ensures WellBranched(Frozen(o, k))
    decreases |o.entries| - k
  {
    var t, ks := Frozen(o, k), ChildrenOf(o, k);
    forall i | 0 <= i < |t.children|
      ensures WellBranched(t.children[i]) && t.children[i] == Frozen(o, ks[i])
      ensures ks[i] > k && ks[i] < |o.entries| && o.parents[ks[i]] == k
    {
      FrozenBranches(o, doc, names, ks[i]);
    }
    if t.children != [] {
      ChildOf(o, doc, names, k, ks[0]);
    }
    forall i | 0 <= i < |t.children|
      ensures var c := t.children[i];
              && (c.kind == Section || c.kind == AtomicGroup)
              && (c.kind == Section ==> t.level < c.level && |c.path| == |t.path| + 1 && t.path <= c.path)
              && (c.kind == AtomicGroup ==> c.path == t.path)
    {
      ChildOf(o, doc, names, k, ks[i]);
    }
  }
}
