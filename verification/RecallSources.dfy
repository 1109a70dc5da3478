/** Recall in full: which records each channel and each conflict group brings in, and what is returned. */
module RecallSources {
  import opened Seqs
  import Sorting
  import opened MemoryRecall

  // What is wanted and where it comes from, in terms of the records alone.

  /** Of the owner, in a requested scope, active, valid now, and of a required kind if there are any. */
  predicate Wanted(r: Record, q: Request) {
    && r.owner == q.owner && r.scope in q.scopes && r.state == Active
    && r.validFrom <= q.now && (r.validUntil.None? || q.now < r.validUntil.value)
    && (q.kinds == {} || r.kind in q.kinds)
  }

  /** Higher importance first, then later validity, then the smaller id. */
  predicate Better(a: Record, b: Record) {
    || a.importance > b.importance
    || (a.importance == b.importance && a.validFrom > b.validFrom)
    || (a.importance == b.importance && a.validFrom == b.validFrom && a.id < b.id)
  }

  predicate Alongside(x: Record, r: Record) {
    x.owner == r.owner && x.scope == r.scope && x.state == Active
  }

  /** Pinned, with at most `maxCandidates` better pinned records in its scope. */
  predicate PinReached(store: seq<Record>, q: Request, r: Record) {
    r.pinned && |Sorting.Filter(store, (x: Record) => Alongside(x, r) && x.pinned && Better(x, r))| <= q.maxCandidates
  }

  /** The first record of its scope with a key that is asked for. */
  ghost predicate KeyFound(store: seq<Record>, q: Request, r: Record) {
    && r.key.Some? && r.key.value in q.keys
    && exists i :: 0 <= i < |store| && store[i] == r && forall j :: 0 <= j < i ==>
         !(Alongside(store[j], r) && store[j].key == r.key)
  }

  predicate RecentReached(store: seq<Record>, q: Request, r: Record) {
    |Sorting.Filter(store, (x: Record) => Alongside(x, r) && Better(x, r))| <= q.maxCandidates
  }

  ghost predicate Sourced(store: seq<Record>, q: Request, r: Record) {
    PinReached(store, q, r) || KeyFound(store, q, r) || RecentReached(store, q, r)
  }

  /** The channel by which `r` is seen first. */
  ghost function FirstChannel(store: seq<Record>, q: Request, r: Record): Channel {
    if PinReached(store, q, r) then Pinned else if KeyFound(store, q, r) then ExactKey else RecentActive
  }

  ghost predicate SiblingOf(h: Record, r: Record) {
    h.group.Some? && h.group == r.group
  }

  /** Brought in by a channel, or as a sibling of a wanted record that one brought in. */
  ghost predicate Eligible(store: seq<Record>, q: Request, r: Record) {
    && r in store && Wanted(r, q)
    && (Sourced(store, q, r) || exists h :: h in store && Wanted(h, q) && Sourced(store, q, h) && SiblingOf(h, r))
  }

  // Definitions against those of the computation.

  lemma {:induction false} WantedMeaning(r: Record, q: Request)
    ensures Wanted(r, q) <==> Revalidates(r, q) && KindOk(r, q)
  {
  }

  lemma {:induction false} BetterMeaning(a: Record, b: Record)
    ensures a.id != b.id ==> (Better(a, b) <==> RankBefore(a, b))
    ensures a.id == b.id ==> !Better(a, a) && RankBefore(a, a)
  {
  }

  lemma {:induction false} SameId(store: seq<Record>, a: Record, b: Record)
    requires DistinctIds(store) && a in store && b in store && a.id == b.id
    ensures a == b
  {
    var i :| 0 <= i < |store| && store[i] == a;
    var j :| 0 <= j < |store| && store[j] == b;
    assert !(i < j) && !(j < i);
  }

  /** The place of `r` in the ranking of those that `keep` keeps is the number of better ones. */
  lemma {:induction false} PlaceAmong(store: seq<Record>, keep: Record -> bool, r: Record, j: nat)
    requires DistinctIds(store)
    requires var part := Sorting.Sort(Sorting.Filter(store, keep), RankBefore);
             j < |part| && part[j] == r
    ensures |Sorting.Filter(store, (x: Record) => keep(x) && Better(x, r))| == j
  {
    var higher := (x: Record) => keep(x) && Better(x, r);
    var part, above := Sorting.Sort(Sorting.Filter(store, keep), RankBefore), Sorting.Filter(store, higher);
    FilterDistinct(store, keep);
    SortDistinct(Sorting.Filter(store, keep));
    FilterDistinct(store, higher);
    DistinctFromIds(above);
    assert r in part;
    Sorting.FilterMember(store, keep, r);
    forall x
      ensures x in above <==> x in part && x != r && RankBefore(x, r)
    {
      Sorting.FilterMember(store, higher, x);
      Sorting.FilterMember(store, keep, x);
      if x in store && x.id == r.id {
        SameId(store, x, r);
      }
      BetterMeaning(x, r);
    }
    PlaceCounts(part, above, j);
  }

  lemma {:induction false} TakenWhen(store: seq<Record>, keep: Record -> bool, r: Record, n: nat)
    requires DistinctIds(store) && r in store && keep(r)
    ensures r in Take(Sorting.Sort(Sorting.Filter(store, keep), RankBefore), n) <==>
            |Sorting.Filter(store, (x: Record) => keep(x) && Better(x, r))| < n
  {
    var part := Sorting.Sort(Sorting.Filter(store, keep), RankBefore);
    FilterDistinct(store, keep);
    SortDistinct(Sorting.Filter(store, keep));
    Sorting.FilterMember(store, keep, r);
    assert r in part;
    var j :| 0 <= j < |part| && part[j] == r;
    PlaceAmong(store, keep, r, j);
    TakeMember(part, n, j);
  }

  lemma {:induction false} TakenKept(store: seq<Record>, keep: Record -> bool, r: Record, n: nat)
    requires r in Take(Sorting.Sort(Sorting.Filter(store, keep), RankBefore), n)
    ensures r in store && keep(r)
  {
    Sorting.SortMember(Sorting.Filter(store, keep), RankBefore, r);
    Sorting.FilterMember(store, keep, r);
  }

  lemma {:induction false} PinnedQuery(store: seq<Record>, q: Request, r: Record, scope: Scope)
    requires DistinctIds(store)
    ensures r in FindPinned(store, q.owner, scope, q.maxCandidates + 1) <==>
            r in store && ActiveIn(r, q.owner, scope) && PinReached(store, q, r)
  {
    var keep := (x: Record) => ActiveIn(x, q.owner, scope) && x.pinned;
    if r in FindPinned(store, q.owner, scope, q.maxCandidates + 1) {
      TakenKept(store, keep, r, q.maxCandidates + 1);
    }
    if r in store && keep(r) {
      TakenWhen(store, keep, r, q.maxCandidates + 1);
      FilterAlike(store, (x: Record) => keep(x) && Better(x, r),
                  (x: Record) => Alongside(x, r) && x.pinned && Better(x, r));
    }
  }

  lemma {:induction false} RecentQuery(store: seq<Record>, q: Request, r: Record, scope: Scope)
    requires DistinctIds(store)
    ensures r in FindRecent(store, q.owner, scope, q.maxCandidates + 1) <==>
            r in store && ActiveIn(r, q.owner, scope) && RecentReached(store, q, r)
  {
    var keep := (x: Record) => ActiveIn(x, q.owner, scope);
    if r in FindRecent(store, q.owner, scope, q.maxCandidates + 1) {
      TakenKept(store, keep, r, q.maxCandidates + 1);
    }
    if r in store && keep(r) {
      TakenWhen(store, keep, r, q.maxCandidates + 1);
      FilterAlike(store, (x: Record) => keep(x) && Better(x, r), (x: Record) => Alongside(x, r) && Better(x, r));
    }
  }

  ghost predicate FirstKept(store: seq<Record>, keep: Record -> bool, r: Record) {
    keep(r) && exists i :: 0 <= i < |store| && store[i] == r && forall j :: 0 <= j < i ==> !keep(store[j])
  }

  lemma {:induction false} FirstOfFilter(store: seq<Record>, keep: Record -> bool, r: Record)
    ensures r in Take(Sorting.Filter(store, keep), 1) <==> FirstKept(store, keep, r)
  {
    if store != [] {
      hide FirstKept;
      var init, last := store[..|store| - 1], store[|store| - 1];
      FirstOfFilter(init, keep, r);
      var f := Sorting.Filter(init, keep);
      assert store == init + [last];
      if f == [] {
        forall i | 0 <= i < |init|
          ensures !keep(init[i])
        {
          Sorting.FilterMember(init, keep, init[i]);
        }
        FirstIsLast(init, last, keep, r);
      } else {
        assert f[0] in f;
        Sorting.FilterMember(init, keep, f[0]);
        var k :| 0 <= k < |init| && init[k] == f[0];
        FirstGrows(init, last, keep, r, k);
        TakeFirst(f, if keep(last) then [last] else []);
      }
    } else {
      assert !FirstKept(store, keep, r);
    }
  }

  lemma {:induction false} TakeFirst(f: seq<Record>, more: seq<Record>)
    requires f != []
    ensures Take(f + more, 1) == Take(f, 1) == [f[0]]
  {
  }

  lemma {:induction false} FirstIsLast(init: seq<Record>, last: Record, keep: Record -> bool, r: Record)
    requires forall i :: 0 <= i < |init| ==> !keep(init[i])
    ensures FirstKept(init + [last], keep, r) <==> keep(last) && r == last
  {
    var store := init + [last];
    assert store[|init|] == last;
    assert forall i :: 0 <= i < |init| ==> store[i] == init[i];
  }

  lemma {:induction false} FirstGrows(init: seq<Record>, last: Record, keep: Record -> bool, r: Record, k: nat)
    requires k < |init| && keep(init[k])
    ensures FirstKept(init + [last], keep, r) <==> FirstKept(init, keep, r)
  {
    var store := init + [last];
    assert forall i :: 0 <= i < |init| ==> store[i] == init[i];
    if FirstKept(store, keep, r) {
      var i :| 0 <= i < |store| && store[i] == r && forall j :: 0 <= j < i ==> !keep(store[j]);
      assert i <= k by {
        assert !keep(store[k]) || i <= k;
      }
      assert init[i] == r;
    }
    if FirstKept(init, keep, r) {
      var i :| 0 <= i < |init| && init[i] == r && forall j :: 0 <= j < i ==> !keep(init[j]);
      assert store[i] == r;
    }
  }

  lemma {:induction false} KeyQuery(store: seq<Record>, q: Request, r: Record, scope: Scope, key: string)
    ensures r in FindByKey(store, q.owner, scope, key) <==>
            && ActiveIn(r, q.owner, scope) && r.key == Some(key)
            && exists i :: 0 <= i < |store| && store[i] == r && forall j :: 0 <= j < i ==>
                 !(Alongside(store[j], r) && store[j].key == r.key)
  {
    var keep := (x: Record) => ActiveIn(x, q.owner, scope) && x.key == Some(key);
    FirstOfFilter(store, keep, r);
    if keep(r) {
      assert forall x :: keep(x) <==> Alongside(x, r) && x.key == r.key;
    }
  }

  lemma {:induction false} GroupQuery(store: seq<Record>, owner: nat, g: nat, r: Record)
    ensures r in FindByGroup(store, owner, g) <==>
            r in store && r.owner == owner && r.group == Some(g) && r.state == Active
  {
    var keep := (x: Record) => x.owner == owner && x.group == Some(g) && x.state == Active;
    Sorting.SortMember(Sorting.Filter(store, keep), IdBefore, r);
    Sorting.FilterMember(store, keep, r);
  }

  // The stages, hit by hit.

  ghost predicate FromStore(hits: seq<Hit>, store: seq<Record>) {
    forall i :: 0 <= i < |hits| ==> hits[i].record in store
  }

  ghost predicate AllIn(rs: seq<Record>, store: seq<Record>) {
    forall i :: 0 <= i < |rs| ==> rs[i] in store
  }

  lemma {:induction false} HoldsHit(hits: seq<Hit>, r: Record)
    ensures Holds(hits, r) <==> exists c :: Hit(r, c) in hits
  {
    if Holds(hits, r) {
      var i :| 0 <= i < |hits| && hits[i].record == r;
      assert Hit(r, hits[i].channel) in hits;
    }
  }

  lemma {:induction false} KnownId(hits: seq<Hit>, r: Record, store: seq<Record>)
    requires FromStore(hits, store) && r in store && DistinctIds(store)
    ensures HasId(hits, r.id) <==> Holds(hits, r)
  {
    if HasId(hits, r.id) {
      var i :| 0 <= i < |hits| && hits[i].record.id == r.id;
      SameId(store, hits[i].record, r);
    }
  }

  lemma {:induction false} AddOne(hits: seq<Hit>, x: Record, ch: Channel, store: seq<Record>, r: Record, c: Channel)
    requires FromStore(hits, store) && x in store && DistinctIds(store)
    ensures FromStore(AddHit(hits, x, ch), store)
    ensures Hit(r, c) in AddHit(hits, x, ch) <==> Hit(r, c) in hits || (c == ch && r == x && !Holds(hits, r))
  {
    KnownId(hits, x, store);
  }

  /** A stage adds exactly what it is given and does not hold yet, under its own channel. */
  lemma {:induction false} AddEach(hits: seq<Hit>, rs: seq<Record>, ch: Channel, store: seq<Record>, r: Record,
                                   c: Channel)
    requires FromStore(hits, store) && AllIn(rs, store) && DistinctIds(store)
    ensures FromStore(AddAll(hits, rs, ch), store)
    ensures Hit(r, c) in AddAll(hits, rs, ch) <==> Hit(r, c) in hits || (c == ch && r in rs && !Holds(hits, r))
  {
    if rs != [] {
      hide AddHit, FromStore, DistinctIds;
      var init, x := rs[..|rs| - 1], rs[|rs| - 1];
      assert rs == init + [x];
      assert AllIn(init, store) && x in store by {
        assert rs[|rs| - 1] == x;
      }
      AddEach(hits, init, ch, store, r, c);
      AddEach(hits, init, ch, store, r, ch);
      var mid := AddAll(hits, init, ch);
      AddOne(mid, x, ch, store, r, c);
      HoldsHit(hits, r);
      HoldsHit(mid, r);
      HoldsAfter(hits, init, ch, store, r);
    }
  }

  lemma {:induction false} HoldsAfter(hits: seq<Hit>, rs: seq<Record>, ch: Channel, store: seq<Record>, r: Record)
    requires FromStore(hits, store) && AllIn(rs, store) && DistinctIds(store)
    ensures FromStore(AddAll(hits, rs, ch), store)
    ensures Holds(AddAll(hits, rs, ch), r) <==> Holds(hits, r) || r in rs
  {
    if rs != [] {
      hide FromStore, DistinctIds, AddHit;
      var init, x := rs[..|rs| - 1], rs[|rs| - 1];
      assert rs == init + [x];
      assert AllIn(init, store) && x in store by {
        assert rs[|rs| - 1] == x;
      }
      HoldsAfter(hits, init, ch, store, r);
      var mid := AddAll(hits, init, ch);
      HoldsOne(mid, x, ch, store, r);
    }
  }

  lemma {:induction false} HoldsOne(hits: seq<Hit>, x: Record, ch: Channel, store: seq<Record>, r: Record)
    requires FromStore(hits, store) && x in store && DistinctIds(store)
    ensures FromStore(AddHit(hits, x, ch), store)
    ensures Holds(AddHit(hits, x, ch), r) <==> Holds(hits, r) || r == x
  {
    KnownId(hits, x, store);
    var more := AddHit(hits, x, ch);
    HoldsPrefix(hits, more);
    if more != hits {
      assert more[|hits|].record == x;
    }
  }

  /** `hits` grew to `more` by exactly the records in `what`, under channel `ch`. */
  ghost predicate GrewBy(hits: seq<Hit>, more: seq<Hit>, ch: Channel, r: Record, c: Channel, what: bool) {
    && (Hit(r, c) in more <==> Hit(r, c) in hits || (c == ch && what && !Holds(hits, r)))
    && (Holds(more, r) <==> Holds(hits, r) || what)
  }

  lemma {:induction false} AddStage(hits: seq<Hit>, mid: seq<Hit>, rs: seq<Record>, ch: Channel, store: seq<Record>,
                                    r: Record, c: Channel, what: bool)
    requires FromStore(mid, store) && AllIn(rs, store) && DistinctIds(store) && GrewBy(hits, mid, ch, r, c, what)
    ensures FromStore(AddAll(mid, rs, ch), store)
    ensures GrewBy(hits, AddAll(mid, rs, ch), ch, r, c, what || r in rs)
  {
    hide FromStore, AllIn, DistinctIds, Holds, AddAll;
    AddEach(mid, rs, ch, store, r, c);
    HoldsAfter(mid, rs, ch, store, r);
  }

  lemma {:induction false} ScopesSnoc(scopes: seq<Scope>, s: Scope)
    requires scopes != []
    ensures s in scopes <==> s in scopes[..|scopes| - 1] || s == scopes[|scopes| - 1]
  {
    assert scopes == scopes[..|scopes| - 1] + [scopes[|scopes| - 1]];
  }

  lemma {:induction false} KeysSnoc(keys: seq<string>, k: string)
    requires keys != []
    ensures k in keys <==> k in keys[..|keys| - 1] || k == keys[|keys| - 1]
  {
    assert keys == keys[..|keys| - 1] + [keys[|keys| - 1]];
  }

  lemma {:induction false} QueriesIn(store: seq<Record>, q: Request, scope: Scope, key: string)
    requires DistinctIds(store)
    ensures AllIn(FindPinned(store, q.owner, scope, q.maxCandidates + 1), store)
    ensures AllIn(FindRecent(store, q.owner, scope, q.maxCandidates + 1), store)
    ensures AllIn(FindByKey(store, q.owner, scope, key), store)
  {
    hide FindPinned, FindRecent, FindByKey, DistinctIds;
    forall x
      ensures x in FindPinned(store, q.owner, scope, q.maxCandidates + 1) ==> x in store
      ensures x in FindRecent(store, q.owner, scope, q.maxCandidates + 1) ==> x in store
      ensures x in FindByKey(store, q.owner, scope, key) ==> x in store
    {
      PinnedQuery(store, q, x, scope);
      RecentQuery(store, q, x, scope);
      KeyQuery(store, q, x, scope, key);
    }
  }

  lemma {:induction false} PinnedHits(scopes: seq<Scope>, store: seq<Record>, q: Request, r: Record, c: Channel)
    requires DistinctIds(store)
    ensures FromStore(PinnedStage([], scopes, store, q), store)
    ensures GrewBy([], PinnedStage([], scopes, store, q), Pinned, r, c,
                   r in store && ActiveIn(r, q.owner, r.scope) && r.scope in scopes && PinReached(store, q, r))
  {
    if scopes != [] {
      hide FindPinned, FindRecent, FindByKey, DistinctIds, PinReached, GrewBy, FromStore, AllIn;
      var init, s := scopes[..|scopes| - 1], scopes[|scopes| - 1];
      PinnedHits(init, store, q, r, c);
      QueriesIn(store, q, s, "");
      PinnedQuery(store, q, r, s);
      ScopesSnoc(scopes, r.scope);
      AddStage([], PinnedStage([], init, store, q), FindPinned(store, q.owner, s, q.maxCandidates + 1), Pinned, store,
               r, c,
               r in store && ActiveIn(r, q.owner, r.scope) && r.scope in init && PinReached(store, q, r));
    }
  }

  lemma {:induction false} RecentHits(hits: seq<Hit>, scopes: seq<Scope>, store: seq<Record>, q: Request, r: Record,
                                      c: Channel)
    requires DistinctIds(store) && FromStore(hits, store)
    ensures FromStore(RecentStage(hits, scopes, store, q), store)
    ensures GrewBy(hits, RecentStage(hits, scopes, store, q), RecentActive, r, c,
                   r in store && ActiveIn(r, q.owner, r.scope) && r.scope in scopes && RecentReached(store, q, r))
  {
    if scopes != [] {
      hide FindPinned, FindRecent, FindByKey, DistinctIds, RecentReached, GrewBy, FromStore, AllIn;
      var init, s := scopes[..|scopes| - 1], scopes[|scopes| - 1];
      RecentHits(hits, init, store, q, r, c);
      QueriesIn(store, q, s, "");
      RecentQuery(store, q, r, s);
      ScopesSnoc(scopes, r.scope);
      AddStage(hits, RecentStage(hits, init, store, q), FindRecent(store, q.owner, s, q.maxCandidates + 1),
               RecentActive,
               store, r, c,
               r in store && ActiveIn(r, q.owner, r.scope) && r.scope in init && RecentReached(store, q, r));
    }
  }

  /** `r` is the first of its scope with its key. */
  ghost predicate FirstOfKey(store: seq<Record>, r: Record) {
    exists i :: 0 <= i < |store| && store[i] == r && forall j :: 0 <= j < i ==>
      !(Alongside(store[j], r) && store[j].key == r.key)
  }

  ghost predicate KeyIn(store: seq<Record>, q: Request, keys: seq<string>, r: Record) {
    r.key.Some? && r.key.value in keys && r.scope in q.scopes && ActiveIn(r, q.owner, r.scope) && FirstOfKey(store, r)
  }

  lemma {:induction false} OneKeyHits(hits: seq<Hit>, mid: seq<Hit>, key: string, scopes: seq<Scope>,
                                      store: seq<Record>,
                                      q: Request, r: Record, c: Channel, what: bool)
    requires DistinctIds(store) && FromStore(mid, store) && GrewBy(hits, mid, ExactKey, r, c, what)
    ensures FromStore(KeyStage(mid, key, scopes, store, q), store)
    ensures GrewBy(hits, KeyStage(mid, key, scopes, store, q), ExactKey, r, c,
                   what || (r.key == Some(key) && r.scope in scopes && ActiveIn(r, q.owner, r.scope)
                            && FirstOfKey(store, r)))
  {
    if scopes != [] {
      hide FindPinned, FindRecent, FindByKey, DistinctIds, GrewBy, FromStore, AllIn;
      var init, s := scopes[..|scopes| - 1], scopes[|scopes| - 1];
      OneKeyHits(hits, mid, key, init, store, q, r, c, what);
      QueriesIn(store, q, s, key);
      KeyQuery(store, q, r, s, key);
      ScopesSnoc(scopes, r.scope);
      hide FirstOfKey;
      AddStage(hits, KeyStage(mid, key, init, store, q), FindByKey(store, q.owner, s, key), ExactKey, store, r, c,
               what || (r.key == Some(key) && r.scope in init && ActiveIn(r, q.owner, r.scope)
                        && FirstOfKey(store, r)));
    }
  }

  lemma {:induction false} KeyHits(hits: seq<Hit>, keys: seq<string>, store: seq<Record>, q: Request, r: Record,
                                   c: Channel)
    requires DistinctIds(store) && FromStore(hits, store)
    ensures FromStore(KeysStage(hits, keys, store, q), store)
    ensures GrewBy(hits, KeysStage(hits, keys, store, q), ExactKey, r, c, KeyIn(store, q, keys, r))
  {
    if keys != [] {
      hide DistinctIds, GrewBy, FromStore, FirstOfKey, KeyStage;
      var init, k := keys[..|keys| - 1], keys[|keys| - 1];
      KeyHits(hits, init, store, q, r, c);
      if r.key.Some? {
        KeysSnoc(keys, r.key.value);
      }
      OneKeyHits(hits, KeysStage(hits, init, store, q), k, q.scopes, store, q, r, c, KeyIn(store, q, init, r));
    }
  }

  /** What is gathered: every candidate with a source, under the channel that sees it first. */
  lemma {:induction false} GatheredExactly(store: seq<Record>, q: Request, r: Record, c: Channel)
    requires DistinctIds(store)
    ensures FromStore(Gathered(store, q), store)
    ensures Hit(r, c) in Gathered(store, q) <==>
            Candidate(r, store, q) && Sourced(store, q, r) && c == FirstChannel(store, q, r)
  {
    hide DistinctIds, FromStore, PinReached, RecentReached, PinnedStage, KeysStage, RecentStage, Holds;
    var p := PinnedStage([], q.scopes, store, q);
    var k := KeysStage(p, q.keys, store, q);
    PinnedHits(q.scopes, store, q, r, c);
    KeyHits(p, q.keys, store, q, r, c);
    RecentHits(k, q.scopes, store, q, r, c);
    NoneHeld(r);
    FirstInStore(store, r);
    hide FirstOfKey;
    assert KeyIn(store, q, q.keys, r) <==> Candidate(r, store, q) && KeyFound(store, q, r) by {
      KeyFoundFirst(store, q, r);
    }
  }

  lemma {:induction false} NoneHeld(r: Record)
    ensures !Holds([], r)
  {
  }

  lemma {:induction false} FirstInStore(store: seq<Record>, r: Record)
    ensures FirstOfKey(store, r) ==> r in store
  {
  }

  lemma {:induction false} KeyFoundFirst(store: seq<Record>, q: Request, r: Record)
    ensures KeyFound(store, q, r) <==> r.key.Some? && r.key.value in q.keys && FirstOfKey(store, r)
  {
  }

  // Validation, kinds, siblings.

  lemma {:induction false} KeptExactly(store: seq<Record>, q: Request, r: Record, c: Channel)
    requires DistinctIds(store)
    ensures FromStore(KindFiltered(Validated(Gathered(store, q), q), q), store)
    ensures Hit(r, c) in KindFiltered(Validated(Gathered(store, q), q), q) <==>
            r in store && Wanted(r, q) && Sourced(store, q, r) && c == FirstChannel(store, q, r)
  {
    hide Gathered, Sourced, FirstChannel, DistinctIds;
    var all := Gathered(store, q);
    GatheredExactly(store, q, r, c);
    WantedMeaning(r, q);
    FilteredHit(all, q, Hit(r, c));
    FilteredFromStore(all, store, q);
  }

  lemma {:induction false} FilteredFromStore(hits: seq<Hit>, store: seq<Record>, q: Request)
    requires FromStore(hits, store)
    ensures FromStore(KindFiltered(Validated(hits, q), q), store)
  {
    var kept := KindFiltered(Validated(hits, q), q);
    forall i | 0 <= i < |kept|
      ensures kept[i].record in store
    {
      FilteredHit(hits, q, kept[i]);
      var j :| 0 <= j < |hits| && hits[j] == kept[i];
    }
  }

  lemma {:induction false} FilteredHit(hits: seq<Hit>, q: Request, h: Hit)
    ensures h in KindFiltered(Validated(hits, q), q) <==> h in hits && Revalidates(h.record, q) && KindOk(h.record, q)
  {
    Sorting.FilterMember(hits, (h: Hit) => Revalidates(h.record, q), h);
    Sorting.FilterMember(Validated(hits, q), (h: Hit) => KindOk(h.record, q), h);
  }

  lemma {:induction false} SiblingAdds(e: Expansion, x: Record, ch: Channel, store: seq<Record>, q: Request, r: Record)
    requires FromStore(e.hits, store) && x in store && DistinctIds(store)
    ensures var f := AddSibling(e, x, ch, q);
            && FromStore(f.hits, store) && (Holds(f.hits, r) <==> Holds(e.hits, r) || (r == x && Wanted(r, q)))
  {
    KnownId(e.hits, x, store);
    WantedMeaning(x, q);
    HoldsOne(e.hits, x, ch, store, r);
  }

  lemma {:induction false} SiblingsAdd(e: Expansion, rs: seq<Record>, ch: Channel, store: seq<Record>, q: Request,
                                       r: Record)
    requires FromStore(e.hits, store) && AllIn(rs, store) && DistinctIds(store)
    ensures var f := AddSiblings(e, rs, ch, q);
            && FromStore(f.hits, store) && (Holds(f.hits, r) <==> Holds(e.hits, r) || (r in rs && Wanted(r, q)))
  {
    if rs != [] {
      hide AddSibling, FromStore, DistinctIds, Holds, Wanted;
      var init, x := rs[..|rs| - 1], rs[|rs| - 1];
      assert rs == init + [x];
      assert AllIn(init, store) && x in store by {
        assert rs[|rs| - 1] == x;
      }
      SiblingsAdd(e, init, ch, store, q, r);
      SiblingAdds(AddSiblings(e, init, ch, q), x, ch, store, q, r);
    }
  }

  ghost predicate SiblingIn(hits: seq<Hit>, r: Record) {
    exists i :: 0 <= i < |hits| && SiblingOf(hits[i].record, r)
  }

  lemma {:induction false} SiblingSnoc(hits: seq<Hit>, r: Record)
    requires hits != []
    ensures SiblingIn(hits, r) <==> SiblingIn(hits[..|hits| - 1], r) || SiblingOf(hits[|hits| - 1].record, r)
  {
    var init := hits[..|hits| - 1];
    if SiblingIn(init, r) {
      var i :| 0 <= i < |init| && SiblingOf(init[i].record, r);
      assert hits[i] == init[i];
    }
  }

  lemma {:induction false} ExpandAdds(e: Expansion, hits: seq<Hit>, store: seq<Record>, q: Request, r: Record)
    requires FromStore(e.hits, store) && DistinctIds(store)
    ensures var f := ExpandAll(e, hits, store, q);
            && FromStore(f.hits, store)
            && (Holds(f.hits, r) <==> Holds(e.hits, r) || (r in store && Wanted(r, q) && SiblingIn(hits, r)))
  {
    if hits != [] {
      hide AddSiblings, FromStore, DistinctIds, Holds, SiblingIn, FindByGroup;
      var init, h := hits[..|hits| - 1], hits[|hits| - 1];
      ExpandAdds(e, init, store, q, r);
      SiblingSnoc(hits, r);
      var mid := ExpandAll(e, init, store, q);
      if h.record.group.Some? {
        var g := h.record.group.value;
        GroupIn(store, q.owner, g);
        GroupQuery(store, q.owner, g, r);
        SiblingsAdd(mid, FindByGroup(store, q.owner, g), h.channel, store, q, r);
      }
    }
  }

  lemma {:induction false} GroupIn(store: seq<Record>, owner: nat, g: nat)
    ensures AllIn(FindByGroup(store, owner, g), store)
  {
    GroupInStore(store, owner, g);
  }

  /** What the expansion holds: every record that is eligible, and no other. */
  lemma {:induction false} ExpandedExactly(store: seq<Record>, q: Request, r: Record)
    requires DistinctIds(store)
    ensures r in Records(Expanded(store, q).hits) <==> Eligible(store, q, r)
  {
    var kept := KindFiltered(Validated(Gathered(store, q), q), q);
    KeptExactly(store, q, r, FirstChannel(store, q, r));
    ExpandAdds(Expansion(kept, Unvalidated(Gathered(store, q), q)), kept, store, q, r);
    RecordsHold(Expanded(store, q).hits, r);
    hide Sourced, Wanted, SiblingOf, DistinctIds, ExpandAll, Gathered, Validated, KindFiltered, FirstChannel;
    KeptHolds(store, q, r);
    KeptSiblings(store, q, r);
  }

  lemma {:induction false} RecordsHold(hits: seq<Hit>, r: Record)
    ensures r in Records(hits) <==> Holds(hits, r)
  {
    if Holds(hits, r) {
      HoldsRecord(hits, r);
    }
    if r in Records(hits) {
      var i :| 0 <= i < |hits| && Records(hits)[i] == r;
    }
  }

  lemma {:induction false} KeptHolds(store: seq<Record>, q: Request, r: Record)
    requires DistinctIds(store)
    ensures Holds(KindFiltered(Validated(Gathered(store, q), q), q), r) <==>
            r in store && Wanted(r, q) && Sourced(store, q, r)
  {
    hide Gathered, Validated, KindFiltered, Sourced, Wanted, FirstChannel;
    var kept := KindFiltered(Validated(Gathered(store, q), q), q);
    HoldsHit(kept, r);
    KeptExactly(store, q, r, FirstChannel(store, q, r));
    if Holds(kept, r) {
      var c :| Hit(r, c) in kept;
      KeptExactly(store, q, r, c);
    }
  }

  // Channels.

  lemma {:induction false} SiblingChannels(e: Expansion, rs: seq<Record>, ch: Channel, q: Request, h: Hit)
    requires h in AddSiblings(e, rs, ch, q).hits
    ensures h in e.hits || (h.channel == ch && h.record in rs && !HasId(e.hits, h.record.id))
    ensures e.hits <= AddSiblings(e, rs, ch, q).hits
  {
    SiblingsExtend(e, rs, ch, q);
    if rs != [] {
      var init := rs[..|rs| - 1];
      var mid := AddSiblings(e, init, ch, q);
      SiblingsExtend(e, init, ch, q);
      if h in mid.hits {
        SiblingChannels(e, init, ch, q, h);
      } else {
        IdsExtend(e.hits, mid.hits, h.record.id);
      }
    }
  }

  lemma {:induction false} SiblingsExtend(e: Expansion, rs: seq<Record>, ch: Channel, q: Request)
    ensures e.hits <= AddSiblings(e, rs, ch, q).hits
  {
    if rs != [] {
      SiblingsExtend(e, rs[..|rs| - 1], ch, q);
    }
  }

  lemma {:induction false} IdsExtend(a: seq<Hit>, b: seq<Hit>, id: nat)
    requires a <= b
    ensures HasId(a, id) ==> HasId(b, id)
  {
    if HasId(a, id) {
      var i :| 0 <= i < |a| && a[i].record.id == id;
      assert b[i] == a[i];
    }
  }

  ghost predicate SiblingChannel(hits: seq<Hit>, h: Hit) {
    exists i :: 0 <= i < |hits| && hits[i].channel == h.channel && SiblingOf(hits[i].record, h.record)
  }

  lemma {:induction false} ExpandChannels(e: Expansion, hits: seq<Hit>, store: seq<Record>, q: Request, h: Hit)
    requires h in ExpandAll(e, hits, store, q).hits
    ensures h in e.hits || (SiblingChannel(hits, h) && !HasId(e.hits, h.record.id))
    ensures e.hits <= ExpandAll(e, hits, store, q).hits
  {
    ExpandExtends(e, hits, store, q);
    if hits != [] {
      hide AddSiblings, FindByGroup, HasId;
      var init, last := hits[..|hits| - 1], hits[|hits| - 1];
      var mid := ExpandAll(e, init, store, q);
      ExpandExtends(e, init, store, q);
      if h in mid.hits {
        ExpandChannels(e, init, store, q, h);
        if h !in e.hits {
          var i :| 0 <= i < |init| && init[i].channel == h.channel && SiblingOf(init[i].record, h.record);
          assert hits[i] == init[i];
        }
      } else {
        var g := last.record.group.value;
        SiblingChannels(mid, FindByGroup(store, q.owner, g), last.channel, q, h);
        GroupQuery(store, q.owner, g, h.record);
        IdsExtend(e.hits, mid.hits, h.record.id);
        assert SiblingOf(hits[|hits| - 1].record, h.record);
      }
    }
  }

  lemma {:induction false} ExpandExtends(e: Expansion, hits: seq<Hit>, store: seq<Record>, q: Request)
    ensures e.hits <= ExpandAll(e, hits, store, q).hits
  {
    if hits != [] {
      hide AddSiblings, FindByGroup;
      var init, last := hits[..|hits| - 1], hits[|hits| - 1];
      ExpandExtends(e, init, store, q);
      if last.record.group.Some? {
        SiblingsExtend(ExpandAll(e, init, store, q), FindByGroup(store, q.owner, last.record.group.value), last.channel,
                       q);
      }
    }
  }

  /** The channel a hit is returned under: the first that sees its record, or, for one that no channel sees, the
      channel of a sibling that brought it in. */
  lemma {:induction false} HitChannels(store: seq<Record>, q: Request, h: Hit)
    requires DistinctIds(store) && h in RecallResult(store, q).hits
    ensures h.record in store && Wanted(h.record, q)
    ensures Sourced(store, q, h.record) ==> h.channel == FirstChannel(store, q, h.record)
    ensures !Sourced(store, q, h.record) ==>
              exists x :: x in store && Wanted(x, q) && Sourced(store, q, x) && SiblingOf(x, h.record)
                          && h.channel == FirstChannel(store, q, x)
  {
    var kept := KindFiltered(Validated(Gathered(store, q), q), q);
    var e := Expansion(kept, Unvalidated(Gathered(store, q), q));
    TakenHit(Expanded(store, q).hits, q.maxCandidates, h);
    hide Sourced, Wanted, FirstChannel, SiblingOf, ExpandAll, Gathered, Validated, KindFiltered, DistinctIds;
    ExpandChannels(e, kept, store, q, h);
    ExpandedExactly(store, q, h.record);
    RecordIn(Expanded(store, q).hits, h);
    KeptExactly(store, q, h.record, h.channel);
    if h !in kept {
      KeptExactly(store, q, h.record, FirstChannel(store, q, h.record));
      if Sourced(store, q, h.record) {
        assert Hit(h.record, FirstChannel(store, q, h.record)) in kept;
        IdHeld(kept, Hit(h.record, FirstChannel(store, q, h.record)));
      }
      var i :| 0 <= i < |kept| && kept[i].channel == h.channel && SiblingOf(kept[i].record, h.record);
      KeptExactly(store, q, kept[i].record, kept[i].channel);
      assert kept[i] == Hit(kept[i].record, kept[i].channel) && kept[i] in kept;
    }
  }

  lemma {:induction false} IdHeld(hits: seq<Hit>, h: Hit)
    requires h in hits
    ensures HasId(hits, h.record.id)
  {
  }

  lemma {:induction false} RecordIn(hits: seq<Hit>, h: Hit)
    requires h in hits
    ensures h.record in Records(hits)
  {
    var i :| 0 <= i < |hits| && hits[i] == h;
    assert Records(hits)[i] == h.record;
  }

  lemma {:induction false} TakenHit(hits: seq<Hit>, n: nat, h: Hit)
    requires h in Take(Sorting.Sort(hits, HitBefore), n)
    ensures h in hits
  {
    Sorting.SortMember(hits, HitBefore, h);
  }

  // Rejections.

  predicate InForce(r: Record, q: Request) {
    && r.owner == q.owner && r.scope in q.scopes && r.state == Active
    && r.validFrom <= q.now && (r.validUntil.None? || q.now < r.validUntil.value)
  }

  ghost predicate Sane(e: Expansion, store: seq<Record>, q: Request) {
    && FromStore(e.hits, store) && AllIn(e.rejected, store) && DistinctIds(e.rejected)
    && forall i :: 0 <= i < |e.hits| ==> InForce(e.hits[i].record, q)
  }

  lemma {:induction false} RejectOne(e: Expansion, x: Record, ch: Channel, store: seq<Record>, q: Request, r: Record)
    requires Sane(e, store, q) && x in store && DistinctIds(store)
    ensures var f := AddSibling(e, x, ch, q);
            Sane(f, store, q) && (r in f.rejected <==> r in e.rejected || (r == x && !InForce(r, q)))
  {
    if HasId(e.hits, x.id) {
      KnownId(e.hits, x, store);
      var i :| 0 <= i < |e.hits| && e.hits[i].record == x;
    } else if HasRecord(e.rejected, x.id) {
      var i :| 0 <= i < |e.rejected| && e.rejected[i].id == x.id;
      SameId(store, e.rejected[i], x);
    }
  }

  lemma {:induction false} RejectEach(e: Expansion, rs: seq<Record>, ch: Channel, store: seq<Record>, q: Request,
                                      r: Record)
    requires Sane(e, store, q) && AllIn(rs, store) && DistinctIds(store)
    ensures var f := AddSiblings(e, rs, ch, q);
            Sane(f, store, q) && (r in f.rejected <==> r in e.rejected || (r in rs && !InForce(r, q)))
  {
    if rs != [] {
      hide AddSibling, Sane, DistinctIds, InForce;
      var init, x := rs[..|rs| - 1], rs[|rs| - 1];
      assert rs == init + [x];
      assert AllIn(init, store) && x in store by {
        assert rs[|rs| - 1] == x;
      }
      RejectEach(e, init, ch, store, q, r);
      RejectOne(AddSiblings(e, init, ch, q), x, ch, store, q, r);
    }
  }

  lemma {:induction false} ExpandRejects(e: Expansion, hits: seq<Hit>, store: seq<Record>, q: Request, r: Record)
    requires Sane(e, store, q) && DistinctIds(store)
    ensures var f := ExpandAll(e, hits, store, q);
            && Sane(f, store, q)
            && (r in f.rejected <==>
                || r in e.rejected
                || (r in store && r.owner == q.owner && r.state == Active && !InForce(r, q) && SiblingIn(hits, r)))
  {
    if hits != [] {
      hide AddSiblings, Sane, DistinctIds, SiblingIn, FindByGroup, InForce;
      var init, h := hits[..|hits| - 1], hits[|hits| - 1];
      ExpandRejects(e, init, store, q, r);
      SiblingSnoc(hits, r);
      if h.record.group.Some? {
        var g := h.record.group.value;
        GroupIn(store, q.owner, g);
        GroupQuery(store, q.owner, g, r);
        RejectEach(ExpandAll(e, init, store, q), FindByGroup(store, q.owner, g), h.channel, store, q, r);
      }
    }
  }

  lemma {:induction false} GatheredRejects(store: seq<Record>, q: Request, r: Record)
    requires DistinctIds(store)
    ensures var all := Gathered(store, q);
            && Sane(Expansion(KindFiltered(Validated(all, q), q), Unvalidated(all, q)), store, q)
            && (r in Unvalidated(all, q) <==> Candidate(r, store, q) && Sourced(store, q, r) && !InForce(r, q))
  {
    hide Gathered, Sourced, FirstChannel, DistinctIds;
    var all := Gathered(store, q);
    GatheredExactly(store, q, r, FirstChannel(store, q, r));
    FilteredFromStore(all, store, q);
    var bad := (h: Hit) => !Revalidates(h.record, q);
    var found := Sorting.Filter(all, bad);
    forall h: Hit
      ensures h in found <==> h in all && bad(h)
      ensures h in KindFiltered(Validated(all, q), q) <==> h in all && Revalidates(h.record, q) && KindOk(h.record, q)
    {
      Sorting.FilterMember(all, bad, h);
      FilteredHit(all, q, h);
    }
    FoundFromStore(all, found, store);
    GatheredGood(store, q);
    FilterGood(all, bad, store, q);
    if r in Records(found) {
      var i :| 0 <= i < |found| && Records(found)[i] == r;
      assert found[i] in all && found[i] == Hit(r, found[i].channel);
      GatheredExactly(store, q, r, found[i].channel);
    } else if Hit(r, FirstChannel(store, q, r)) in found {
      RecordIn(found, Hit(r, FirstChannel(store, q, r)));
    }
  }

  lemma {:induction false} FoundFromStore(all: seq<Hit>, found: seq<Hit>, store: seq<Record>)
    requires FromStore(all, store) && forall h: Hit :: h in found ==> h in all
    ensures AllIn(Records(found), store)
  {
    forall i | 0 <= i < |found|
      ensures Records(found)[i] in store
    {
      assert found[i] in all;
      var j :| 0 <= j < |all| && all[j] == found[i];
    }
  }

  /** What is reported as rejected, each once: exactly the records that a channel saw, and the active siblings of
      wanted ones it saw, that are not in force for the request. */
  lemma {:induction false} RejectedExactly(store: seq<Record>, q: Request, r: Record)
    requires DistinctIds(store)
    ensures DistinctIds(RecallResult(store, q).rejected)
    ensures r in RecallResult(store, q).rejected <==>
            && r in store && r.owner == q.owner && r.state == Active && !InForce(r, q)
            && ((r.scope in q.scopes && Sourced(store, q, r))
                || exists h :: h in store && Wanted(h, q) && Sourced(store, q, h) && SiblingOf(h, r))
  {
    var all := Gathered(store, q);
    var kept := KindFiltered(Validated(all, q), q);
    GatheredRejects(store, q, r);
    ExpandRejects(Expansion(kept, Unvalidated(all, q)), kept, store, q, r);
    hide Sourced, Wanted, SiblingOf, DistinctIds, ExpandAll, Gathered, Validated, KindFiltered, FirstChannel,
      Unvalidated;
    hide InForce;
    KeptSiblings(store, q, r);
  }

  lemma {:induction false} KeptSiblings(store: seq<Record>, q: Request, r: Record)
    requires DistinctIds(store)
    ensures SiblingIn(KindFiltered(Validated(Gathered(store, q), q), q), r) <==>
            exists h :: h in store && Wanted(h, q) && Sourced(store, q, h) && SiblingOf(h, r)
  {
    hide Sourced, Wanted, SiblingOf, Gathered, Validated, KindFiltered, FirstChannel, DistinctIds;
    var kept := KindFiltered(Validated(Gathered(store, q), q), q);
    if SiblingIn(kept, r) {
      var i :| 0 <= i < |kept| && SiblingOf(kept[i].record, r);
      assert Hit(kept[i].record, kept[i].channel) in kept;
      KeptExactly(store, q, kept[i].record, kept[i].channel);
    }
    if exists h :: h in store && Wanted(h, q) && Sourced(store, q, h) && SiblingOf(h, r) {
      var h :| h in store && Wanted(h, q) && Sourced(store, q, h) && SiblingOf(h, r);
      KeptExactly(store, q, h, FirstChannel(store, q, h));
      var i :| 0 <= i < |kept| && kept[i] == Hit(h, FirstChannel(store, q, h));
      assert SiblingOf(kept[i].record, r);
    }
  }

  // The result.

  lemma {:induction false} ExpandedRanking(store: seq<Record>, q: Request)
    requires DistinctIds(store)
    ensures var part := Sorting.Sort(Records(Expanded(store, q).hits), RankBefore);
            && DistinctIds(part) && Distinct(part) && Sorting.Sorted(part, RankBefore)
            && |part| == |Expanded(store, q).hits|
            && (forall r :: r in part <==> r in Records(Expanded(store, q).hits))
            && Records(RecallResult(store, q).hits) == Take(part, q.maxCandidates)
  {
    ExpandedFits(store, q);
    hide Expanded;
    SortDistinct(Records(Expanded(store, q).hits));
    RecordsSort(Expanded(store, q).hits);
    TakeRecords(Sorting.Sort(Expanded(store, q).hits, HitBefore), q.maxCandidates);
  }

  /** Every recall, in full: the best `maxCandidates` of the eligible records, best first, and `truncated`
      exactly when there are more; where `top` lists the eligible ones, each once, best first. */
  lemma {:induction false} RecallExactly(store: seq<Record>, q: Request, top: seq<Record>)
    requires DistinctIds(store)
    requires forall r :: r in top <==> Eligible(store, q, r)
    requires forall i, j :: 0 <= i < j < |top| ==> Better(top[i], top[j])
    ensures Records(RecallResult(store, q).hits) == Take(top, q.maxCandidates)
    ensures RecallResult(store, q).truncated <==> |top| > q.maxCandidates
  {
    hide Expanded, Eligible, RankBefore;
    ExpandedRanking(store, q);
    var part := Sorting.Sort(Records(Expanded(store, q).hits), RankBefore);
    forall r
      ensures r in part <==> r in top
    {
      ExpandedExactly(store, q, r);
    }
    RankedByBetter(top);
    SameRanking(part, top);
  }

  lemma {:induction false} RankedByBetter(top: seq<Record>)
    requires forall i, j :: 0 <= i < j < |top| ==> Better(top[i], top[j])
    ensures Distinct(top) && Sorting.Sorted(top, RankBefore)
  {
    forall i, j | 0 <= i < j < |top|
      ensures top[i] != top[j] && RankBefore(top[i], top[j])
    {
      assert Better(top[i], top[j]);
    }
  }

  /** The eligible records can be listed best first. */
  lemma {:induction false} EligibleRanked(store: seq<Record>, q: Request) returns (top: seq<Record>)
    requires DistinctIds(store)
    ensures forall r :: r in top <==> Eligible(store, q, r)
    ensures forall i, j :: 0 <= i < j < |top| ==> Better(top[i], top[j])
  {
    hide Expanded, Eligible;
    ExpandedRanking(store, q);
    top := Sorting.Sort(Records(Expanded(store, q).hits), RankBefore);
    forall r
      ensures r in top <==> Eligible(store, q, r)
    {
      ExpandedExactly(store, q, r);
    }
    forall i, j | 0 <= i < j < |top|
      ensures Better(top[i], top[j])
    {
      assert RankBefore(top[i], top[j]) && top[i].id != top[j].id;
      BetterMeaning(top[i], top[j]);
    }
  }

  /** An eligible record is returned unless `maxCandidates` eligible ones are better. */
  lemma {:induction false} EligibleIsHit(store: seq<Record>, q: Request, r: Record)
    requires DistinctIds(store) && Eligible(store, q, r)
    ensures r in Records(RecallResult(store, q).hits)
            || (|RecallResult(store, q).hits| == q.maxCandidates && RecallResult(store, q).truncated
                && forall i :: 0 <= i < q.maxCandidates ==> Better(RecallResult(store, q).hits[i].record, r))
  {
    hide Eligible, RecallResult, Better;
    var top := EligibleRanked(store, q);
    RecallExactly(store, q, top);
    var hits := Records(RecallResult(store, q).hits);
    var k :| 0 <= k < |top| && top[k] == r;
    if |top| > q.maxCandidates {
      if k < q.maxCandidates {
        assert hits[k] == r;
      } else {
        forall i | 0 <= i < q.maxCandidates
          ensures Better(RecallResult(store, q).hits[i].record, r)
        {
          assert hits[i] == top[i] && Better(top[i], top[k]);
        }
      }
    }
  }

  /** A key that is asked for finds its record, if it is wanted and the only active one of its scope with that
      key, wherever it ranks in its scope: it is returned, as found by its key unless a pin was seen first, or
      `maxCandidates` better ones are. */
  lemma {:induction false} KeyFinds(store: seq<Record>, q: Request, r: Record)
    requires DistinctIds(store) && r in store && Wanted(r, q) && r.key.Some? && r.key.value in q.keys
    requires forall x :: x in store && Alongside(x, r) && x.key == r.key ==> x == r
    ensures var hits := RecallResult(store, q).hits;
            || Hit(r, if PinReached(store, q, r) then Pinned else ExactKey) in hits
            || (|hits| == q.maxCandidates && forall i :: 0 <= i < q.maxCandidates ==> Better(hits[i].record, r))
  {
    var k :| 0 <= k < |store| && store[k] == r;
    forall j | 0 <= j < k
      ensures !(Alongside(store[j], r) && store[j].key == r.key)
    {
      assert store[j] in store && store[j].id != store[k].id;
    }
    assert KeyFound(store, q, r);
    SourcedIsHit(store, q, r);
  }

  /** A wanted record with a source is returned under the channel that sees it first, or `maxCandidates` better
      ones are. */
  lemma {:induction false} SourcedIsHit(store: seq<Record>, q: Request, r: Record)
    requires DistinctIds(store) && r in store && Wanted(r, q) && Sourced(store, q, r)
    ensures var hits := RecallResult(store, q).hits;
            || Hit(r, FirstChannel(store, q, r)) in hits
            || (|hits| == q.maxCandidates && forall i :: 0 <= i < q.maxCandidates ==> Better(hits[i].record, r))
  {
    hide RecallResult, Sourced, Wanted, FirstChannel, Better, DistinctIds;
    EligibleIsHit(store, q, r);
    var hits := RecallResult(store, q).hits;
    if r in Records(hits) {
      var i :| 0 <= i < |hits| && Records(hits)[i] == r;
      HitChannels(store, q, hits[i]);
      assert hits[i] == Hit(r, FirstChannel(store, q, r));
    }
  }

  /** A wanted pinned record that the limit reaches is returned as a pin, and every wanted sibling of it is
      eligible: returned unless `maxCandidates` better ones are. */
  lemma {:induction false} PinsAndSiblings(store: seq<Record>, q: Request, h: Record, r: Record)
    requires DistinctIds(store) && h in store && Wanted(h, q) && r in store && Wanted(r, q) && SiblingOf(h, r)
    requires PinReached(store, q, h)
    ensures var hits := RecallResult(store, q).hits;
            || Hit(h, Pinned) in hits
            || (|hits| == q.maxCandidates && forall i :: 0 <= i < q.maxCandidates ==> Better(hits[i].record, h))
    ensures var hits := RecallResult(store, q).hits;
            || r in Records(hits)
            || (|hits| == q.maxCandidates && forall i :: 0 <= i < q.maxCandidates ==> Better(hits[i].record, r))
  {
    hide RecallResult, Wanted, PinReached, KeyFound, RecentReached, Better, DistinctIds;
    SourcedIsHit(store, q, h);
    EligibleIsHit(store, q, r);
  }
}
