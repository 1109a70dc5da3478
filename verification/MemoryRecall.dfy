/** Memory recall: bounded queries per scope, merged, revalidated, expanded by conflict group,
    ranked and cut. */
module MemoryRecall {
  import opened Seqs
  import Sorting

  datatype Scope = UserScope | ConversationScope | TaskScope | NamedScope(name: string)

  datatype MemoryState = Active | OtherState(name: string)

  datatype Record = Record(
    id: nat, owner: nat, scope: Scope, kind: string, state: MemoryState, key: Option<string>,
    importance: real, pinned: bool, validFrom: int, validUntil: Option<int>, group: Option<nat>)

  datatype Channel = Pinned | ExactKey | RecentActive

  datatype Hit = Hit(record: Record, channel: Channel)

  datatype Request = Request(
    owner: nat, scopes: seq<Scope>, keys: seq<string>, kinds: set<string>, maxCandidates: nat, now: int)

  datatype Recalled = Recalled(hits: seq<Hit>, rejected: seq<Record>, truncated: bool)

  // The repository's ordered, limited queries.

  /** Importance and start of validity descending, then id ascending. */
  predicate RankBefore(a: Record, b: Record) {
    a.importance > b.importance
    || (a.importance == b.importance
        && (a.validFrom > b.validFrom || (a.validFrom == b.validFrom && a.id <= b.id)))
  }

  predicate IdBefore(a: Record, b: Record) {
    a.id <= b.id
  }

  function Take<T>(s: seq<T>, n: nat): seq<T> {
    if |s| <= n then s else s[..n]
  }

  predicate ActiveIn(r: Record, owner: nat, scope: Scope) {
    r.owner == owner && r.scope == scope && r.state == Active
  }

  function ActiveOf(store: seq<Record>, owner: nat, scope: Scope): seq<Record> {
    Sorting.Filter(store, (r: Record) => ActiveIn(r, owner, scope))
  }

  function FindRecent(store: seq<Record>, owner: nat, scope: Scope, limit: nat): seq<Record> {
    Take(Sorting.Sort(ActiveOf(store, owner, scope), RankBefore), limit)
  }

  function FindPinned(store: seq<Record>, owner: nat, scope: Scope, limit: nat): seq<Record> {
    Take(Sorting.Sort(Sorting.Filter(store, (r: Record) => ActiveIn(r, owner, scope) && r.pinned), RankBefore), limit)
  }

  function FindByKey(store: seq<Record>, owner: nat, scope: Scope, key: string): seq<Record> {
    Take(Sorting.Filter(store, (r: Record) => ActiveIn(r, owner, scope) && r.key == Some(key)), 1)
  }

  function FindByGroup(store: seq<Record>, owner: nat, group: nat): seq<Record> {
    Sorting.Sort(Sorting.Filter(store, (r: Record) => r.owner == owner && r.group == Some(group) && r.state == Active),
                 IdBefore)
  }

  /** `revalidate_record`: owner, scope, state and validity. */
  predicate Revalidates(r: Record, q: Request) {
    && r.owner == q.owner && r.scope in q.scopes && r.state == Active
    && r.validFrom <= q.now && (r.validUntil.None? || r.validUntil.value > q.now)
  }

  predicate KindOk(r: Record, q: Request) {
    q.kinds == {} || r.kind in q.kinds
  }

  // The stages. A dictionary keyed by record id is a sequence of hits in insertion order.

  predicate HasId(hits: seq<Hit>, id: nat) {
    exists i :: 0 <= i < |hits| && hits[i].record.id == id
  }

  function AddHit(hits: seq<Hit>, r: Record, channel: Channel): seq<Hit> {
    if HasId(hits, r.id) then hits else hits + [Hit(r, channel)]
  }

  function AddAll(hits: seq<Hit>, rs: seq<Record>, channel: Channel): seq<Hit> {
    if rs == [] then hits else AddHit(AddAll(hits, rs[..|rs| - 1], channel), rs[|rs| - 1], channel)
  }

  function PinnedStage(hits: seq<Hit>, scopes: seq<Scope>, store: seq<Record>, q: Request): seq<Hit> {
    if scopes == [] then hits
    else
      AddAll(PinnedStage(hits, scopes[..|scopes| - 1], store, q),
             FindPinned(store, q.owner, scopes[|scopes| - 1], q.maxCandidates + 1), Pinned)
  }

  function KeyStage(hits: seq<Hit>, key: string, scopes: seq<Scope>, store: seq<Record>, q: Request): seq<Hit> {
    if scopes == [] then hits
    else
      AddAll(KeyStage(hits, key, scopes[..|scopes| - 1], store, q),
             FindByKey(store, q.owner, scopes[|scopes| - 1], key), ExactKey)
  }

  function KeysStage(hits: seq<Hit>, keys: seq<string>, store: seq<Record>, q: Request): seq<Hit> {
    if keys == [] then hits
    else KeyStage(KeysStage(hits, keys[..|keys| - 1], store, q), keys[|keys| - 1], q.scopes, store, q)
  }

  function RecentStage(hits: seq<Hit>, scopes: seq<Scope>, store: seq<Record>, q: Request): seq<Hit> {
    if scopes == [] then hits
    else
      AddAll(RecentStage(hits, scopes[..|scopes| - 1], store, q),
             FindRecent(store, q.owner, scopes[|scopes| - 1], q.maxCandidates + 1), RecentActive)
  }

  function Gathered(store: seq<Record>, q: Request): seq<Hit> {
    RecentStage(KeysStage(PinnedStage([], q.scopes, store, q), q.keys, store, q), q.scopes, store, q)
  }

  function Validated(hits: seq<Hit>, q: Request): seq<Hit> {
    Sorting.Filter(hits, (h: Hit) => Revalidates(h.record, q))
  }

  function KindFiltered(hits: seq<Hit>, q: Request): seq<Hit> {
    Sorting.Filter(hits, (h: Hit) => KindOk(h.record, q))
  }

  function Records(hits: seq<Hit>): (r: seq<Record>)
    ensures |r| == |hits| && forall i :: 0 <= i < |hits| ==> r[i] == hits[i].record
  {
    seq(|hits|, i requires 0 <= i < |hits| => hits[i].record)
  }

  function Unvalidated(hits: seq<Hit>, q: Request): seq<Record> {
    Records(Sorting.Filter(hits, (h: Hit) => !Revalidates(h.record, q)))
  }

  /** Expanded hits and rejected records. */
  datatype Expansion = Expansion(hits: seq<Hit>, rejected: seq<Record>)

  predicate HasRecord(rs: seq<Record>, id: nat) {
    exists i :: 0 <= i < |rs| && rs[i].id == id
  }

  function AddSibling(e: Expansion, r: Record, channel: Channel, q: Request): Expansion {
    if HasId(e.hits, r.id) then e
    else if !Revalidates(r, q) then (if HasRecord(e.rejected, r.id) then e else e.(rejected := e.rejected + [r]))
    else if !KindOk(r, q) then e
    else e.(hits := e.hits + [Hit(r, channel)])
  }

  function AddSiblings(e: Expansion, rs: seq<Record>, channel: Channel, q: Request): Expansion {
    if rs == [] then e else AddSibling(AddSiblings(e, rs[..|rs| - 1], channel, q), rs[|rs| - 1], channel, q)
  }

  function ExpandHit(e: Expansion, h: Hit, store: seq<Record>, q: Request): Expansion {
    match h.record.group
    case None => e
    case Some(g) => AddSiblings(e, FindByGroup(store, q.owner, g), h.channel, q)
  }

  function ExpandAll(e: Expansion, hits: seq<Hit>, store: seq<Record>, q: Request): Expansion {
    if hits == [] then e else ExpandHit(ExpandAll(e, hits[..|hits| - 1], store, q), hits[|hits| - 1], store, q)
  }

  function Expanded(store: seq<Record>, q: Request): Expansion {
    var all := Gathered(store, q);
    var kept := KindFiltered(Validated(all, q), q);
    ExpandAll(Expansion(kept, Unvalidated(all, q)), kept, store, q)
  }

  predicate HitBefore(a: Hit, b: Hit) {
    RankBefore(a.record, b.record)
  }

  function RecallResult(store: seq<Record>, q: Request): Recalled {
    var e := Expanded(store, q);
    Recalled(Take(Sorting.Sort(e.hits, HitBefore), q.maxCandidates), e.rejected, |e.hits| > q.maxCandidates)
  }

  method CollectHits(hits: seq<Hit>, rs: seq<Record>, channel: Channel) returns (r: seq<Hit>)
    ensures r == AddAll(hits, rs, channel)
  {
    r := hits;
    for i := 0 to |rs|
      invariant r == AddAll(hits, rs[..i], channel)
    {
      assert rs[..i + 1][..i] == rs[..i];
      if !(exists k :: 0 <= k < |r| && r[k].record.id == rs[i].id) {
        r := r + [Hit(rs[i], channel)];
      }
    }
    assert rs[..|rs|] == rs;
  }

  method ExpandSiblings(e: Expansion, h: Hit, store: seq<Record>, q: Request) returns (r: Expansion)
    ensures r == ExpandHit(e, h, store, q)
  {
    if h.record.group.None? {
      return e;
    }
    var siblings := FindByGroup(store, q.owner, h.record.group.value);
    r := e;
    for i := 0 to |siblings|
      invariant r == AddSiblings(e, siblings[..i], h.channel, q)
    {
      assert siblings[..i + 1][..i] == siblings[..i];
      var s := siblings[i];
      if HasId(r.hits, s.id) {
      } else if !Revalidates(s, q) {
        if !HasRecord(r.rejected, s.id) {
          r := r.(rejected := r.rejected + [s]);
        }
      } else if KindOk(s, q) {
        r := r.(hits := r.hits + [Hit(s, h.channel)]);
      }
    }
    assert siblings[..|siblings|] == siblings;
  }

  /** `MemoryRecallService.recall`. */
  method Recall(store: seq<Record>, q: Request) returns (result: Recalled)
    ensures result == RecallResult(store, q)
  {
    hide AddAll, ExpandHit, FindPinned, FindByKey, FindRecent;
    var byId: seq<Hit> := [];
    for s := 0 to |q.scopes|
      invariant byId == PinnedStage([], q.scopes[..s], store, q)
    {
      assert q.scopes[..s + 1][..s] == q.scopes[..s];
      byId := CollectHits(byId, FindPinned(store, q.owner, q.scopes[s], q.maxCandidates + 1), Pinned);
    }
    assert q.scopes[..|q.scopes|] == q.scopes;
    ghost var pinned := byId;
    for k := 0 to |q.keys|
      invariant byId == KeysStage(pinned, q.keys[..k], store, q)
    {
      assert q.keys[..k + 1][..k] == q.keys[..k];
      ghost var before := byId;
      for s := 0 to |q.scopes|
        invariant byId == KeyStage(before, q.keys[k], q.scopes[..s], store, q)
      {
        assert q.scopes[..s + 1][..s] == q.scopes[..s];
        byId := CollectHits(byId, FindByKey(store, q.owner, q.scopes[s], q.keys[k]), ExactKey);
      }
    }
    assert q.keys[..|q.keys|] == q.keys;
    ghost var keyed := byId;
    for s := 0 to |q.scopes|
      invariant byId == RecentStage(keyed, q.scopes[..s], store, q)
    {
      assert q.scopes[..s + 1][..s] == q.scopes[..s];
      byId := CollectHits(byId, FindRecent(store, q.owner, q.scopes[s], q.maxCandidates + 1), RecentActive);
    }
    assert byId == Gathered(store, q);
    var validated, rejected := Validated(byId, q), Unvalidated(byId, q);
    var kept := KindFiltered(validated, q);
    var e := Expansion(kept, rejected);
    for i := 0 to |kept|
      invariant e == ExpandAll(Expansion(kept, rejected), kept[..i], store, q)
    {
      assert kept[..i + 1][..i] == kept[..i];
      e := ExpandSiblings(e, kept[i], store, q);
    }
    assert kept[..|kept|] == kept;
    var ordered := Sorting.Sort(e.hits, HitBefore);
    Sorting.SortContents(e.hits, HitBefore);
    result := Recalled(Take(ordered, q.maxCandidates), e.rejected, |ordered| > q.maxCandidates);
  }

  // Everything that is gathered is active in the requested scopes, and no id comes twice.

  predicate Candidate(r: Record, store: seq<Record>, q: Request) {
    r in store && r.owner == q.owner && r.scope in q.scopes && r.state == Active
  }

  ghost predicate DistinctIds(rs: seq<Record>) {
    forall i, j :: 0 <= i < j < |rs| ==> rs[i].id != rs[j].id
  }

  ghost predicate GoodHits(hits: seq<Hit>, store: seq<Record>, q: Request) {
    DistinctIds(Records(hits)) && forall i :: 0 <= i < |hits| ==> Candidate(hits[i].record, store, q)
  }

  predicate AllCandidates(rs: seq<Record>, store: seq<Record>, q: Request) {
    forall i :: 0 <= i < |rs| ==> Candidate(rs[i], store, q)
  }

  /** `a` is among the hits. */
  ghost predicate Holds(hits: seq<Hit>, a: Record) {
    exists i :: 0 <= i < |hits| && hits[i].record == a
  }

  ghost predicate Grows(a: seq<Hit>, b: seq<Hit>) {
    forall r :: Holds(a, r) ==> Holds(b, r)
  }

  lemma {:induction false} HoldsPrefix(a: seq<Hit>, b: seq<Hit>)
    requires a <= b
    ensures Grows(a, b)
  {
    forall r | Holds(a, r)
      ensures Holds(b, r)
    {
      var i :| 0 <= i < |a| && a[i].record == r;
      assert b[i].record == r;
    }
  }

  lemma {:induction false} AddHitGood(hits: seq<Hit>, r: Record, channel: Channel, store: seq<Record>, q: Request)
    requires GoodHits(hits, store, q) && Candidate(r, store, q) && DistinctIds(store)
    ensures GoodHits(AddHit(hits, r, channel), store, q) && hits <= AddHit(hits, r, channel)
    ensures Holds(AddHit(hits, r, channel), r)
  {
    if HasId(hits, r.id) {
      var i :| 0 <= i < |hits| && hits[i].record.id == r.id;
      assert Candidate(hits[i].record, store, q);
      var j :| 0 <= j < |store| && store[j] == r;
      var k :| 0 <= k < |store| && store[k] == hits[i].record;
      assert j == k;
    } else {
      var b := hits + [Hit(r, channel)];
      assert b[|hits|].record == r;
      assert AddHit(hits, r, channel) == b;
    }
  }

  lemma {:induction false} AddAllGood(hits: seq<Hit>, rs: seq<Record>, channel: Channel, store: seq<Record>, q: Request)
    requires GoodHits(hits, store, q) && AllCandidates(rs, store, q) && DistinctIds(store)
    ensures GoodHits(AddAll(hits, rs, channel), store, q) && Grows(hits, AddAll(hits, rs, channel))
    ensures forall i :: 0 <= i < |rs| ==> Holds(AddAll(hits, rs, channel), rs[i])
  {
    if rs != [] {
      hide GoodHits, Holds, Candidate;
      var init, last := rs[..|rs| - 1], rs[|rs| - 1];
      AddAllGood(hits, init, channel, store, q);
      var mid := AddAll(hits, init, channel);
      AddHitGood(mid, last, channel, store, q);
      HoldsPrefix(mid, AddAll(hits, rs, channel));
      forall i | 0 <= i < |rs|
        ensures Holds(AddAll(hits, rs, channel), rs[i])
      {
        if i < |init| {
          assert init[i] == rs[i];
        }
      }
    }
  }

  lemma {:induction false} FilterCandidates(store: seq<Record>, keep: Record -> bool, q: Request)
    requires forall r :: keep(r) ==> r.owner == q.owner && r.scope in q.scopes && r.state == Active
    ensures AllCandidates(Sorting.Filter(store, keep), store, q)
  {
    var f := Sorting.Filter(store, keep);
    forall i | 0 <= i < |f|
      ensures Candidate(f[i], store, q)
    {
      Sorting.FilterMember(store, keep, f[i]);
    }
  }

  lemma {:induction false} SortedCandidates(rs: seq<Record>, n: nat, store: seq<Record>, q: Request)
    requires AllCandidates(rs, store, q)
    ensures AllCandidates(Take(Sorting.Sort(rs, RankBefore), n), store, q) && AllCandidates(Take(rs, n), store, q)
  {
    Sorting.SortContents(rs, RankBefore);
    var s := Sorting.Sort(rs, RankBefore);
    forall i | 0 <= i < |s|
      ensures Candidate(s[i], store, q)
    {
      assert s[i] in multiset(rs);
    }
  }

  lemma {:induction false} QueriesAreCandidates(store: seq<Record>, q: Request, scope: Scope, key: string, n: nat)
    requires scope in q.scopes
    ensures AllCandidates(FindPinned(store, q.owner, scope, n), store, q)
    ensures AllCandidates(FindRecent(store, q.owner, scope, n), store, q)
    ensures AllCandidates(FindByKey(store, q.owner, scope, key), store, q)
  {
    var pinned := (r: Record) => ActiveIn(r, q.owner, scope) && r.pinned;
    var active := (r: Record) => ActiveIn(r, q.owner, scope);
    var keyed := (r: Record) => ActiveIn(r, q.owner, scope) && r.key == Some(key);
    FilterCandidates(store, pinned, q);
    FilterCandidates(store, active, q);
    FilterCandidates(store, keyed, q);
    SortedCandidates(Sorting.Filter(store, pinned), n, store, q);
    SortedCandidates(Sorting.Filter(store, active), n, store, q);
    SortedCandidates(Sorting.Filter(store, keyed), 1, store, q);
  }

  lemma {:induction false} PinnedGood(hits: seq<Hit>, scopes: seq<Scope>, store: seq<Record>, q: Request)
    requires GoodHits(hits, store, q) && DistinctIds(store) && forall i :: 0 <= i < |scopes| ==> scopes[i] in q.scopes
    ensures GoodHits(PinnedStage(hits, scopes, store, q), store, q)
  {
    if scopes != [] {
      hide GoodHits, AllCandidates, FindPinned, FindRecent, FindByKey, DistinctIds;
      var init, last := scopes[..|scopes| - 1], scopes[|scopes| - 1];
      PinnedGood(hits, init, store, q);
      QueriesAreCandidates(store, q, last, "", q.maxCandidates + 1);
      AddAllGood(PinnedStage(hits, init, store, q), FindPinned(store, q.owner, last, q.maxCandidates + 1), Pinned,
                 store, q);
    }
  }

  lemma {:induction false} KeyGood(hits: seq<Hit>, key: string, scopes: seq<Scope>, store: seq<Record>, q: Request)
    requires GoodHits(hits, store, q) && DistinctIds(store) && forall i :: 0 <= i < |scopes| ==> scopes[i] in q.scopes
    ensures GoodHits(KeyStage(hits, key, scopes, store, q), store, q)
  {
    if scopes != [] {
      hide GoodHits, AllCandidates, FindPinned, FindRecent, FindByKey, DistinctIds;
      var init, last := scopes[..|scopes| - 1], scopes[|scopes| - 1];
      KeyGood(hits, key, init, store, q);
      QueriesAreCandidates(store, q, last, key, 1);
      AddAllGood(KeyStage(hits, key, init, store, q), FindByKey(store, q.owner, last, key), ExactKey, store, q);
    }
  }

  lemma {:induction false} KeysGood(hits: seq<Hit>, keys: seq<string>, store: seq<Record>, q: Request)
    requires GoodHits(hits, store, q) && DistinctIds(store)
    ensures GoodHits(KeysStage(hits, keys, store, q), store, q)
  {
    if keys != [] {
      hide GoodHits, KeyStage, DistinctIds;
      KeysGood(hits, keys[..|keys| - 1], store, q);
      KeyGood(KeysStage(hits, keys[..|keys| - 1], store, q), keys[|keys| - 1], q.scopes, store, q);
    }
  }

  lemma {:induction false} RecentGood(hits: seq<Hit>, scopes: seq<Scope>, store: seq<Record>, q: Request, s: nat,
                                      r: Record)
    requires GoodHits(hits, store, q) && DistinctIds(store) && forall i :: 0 <= i < |scopes| ==> scopes[i] in q.scopes
    ensures GoodHits(RecentStage(hits, scopes, store, q), store, q)
    ensures s < |scopes| && r in FindRecent(store, q.owner, scopes[s], q.maxCandidates + 1) ==>
              Holds(RecentStage(hits, scopes, store, q), r)
  {
    if scopes != [] {
      hide GoodHits, AllCandidates, FindPinned, FindRecent, FindByKey, Holds, DistinctIds;
      var init, last := scopes[..|scopes| - 1], scopes[|scopes| - 1];
      RecentGood(hits, init, store, q, s, r);
      QueriesAreCandidates(store, q, last, "", q.maxCandidates + 1);
      AddAllGood(RecentStage(hits, init, store, q), FindRecent(store, q.owner, last, q.maxCandidates + 1), RecentActive,
                 store, q);
      if s < |init| {
        assert init[s] == scopes[s];
      }
    }
  }

  lemma {:induction false} SiblingsGood(e: Expansion, rs: seq<Record>, channel: Channel, store: seq<Record>, q: Request)
    requires GoodHits(e.hits, store, q) && DistinctIds(store) && forall i :: 0 <= i < |rs| ==> rs[i] in store
    ensures GoodHits(AddSiblings(e, rs, channel, q).hits, store, q)
            && Grows(e.hits, AddSiblings(e, rs, channel, q).hits)
  {
    if rs != [] {
      hide Holds;
      var init, last := rs[..|rs| - 1], rs[|rs| - 1];
      SiblingsGood(e, init, channel, store, q);
      var mid := AddSiblings(e, init, channel, q);
      SiblingGood(mid, last, channel, store, q);
    }
  }

  lemma {:induction false} SiblingGood(e: Expansion, r: Record, channel: Channel, store: seq<Record>, q: Request)
    requires GoodHits(e.hits, store, q) && DistinctIds(store) && r in store
    ensures GoodHits(AddSibling(e, r, channel, q).hits, store, q) && Grows(e.hits, AddSibling(e, r, channel, q).hits)
  {
    HoldsPrefix(e.hits, AddSibling(e, r, channel, q).hits);
    if !HasId(e.hits, r.id) && Revalidates(r, q) && KindOk(r, q) {
      AddHitGood(e.hits, r, channel, store, q);
    }
  }

  lemma {:induction false} GroupInStore(store: seq<Record>, owner: nat, g: nat)
    ensures forall i :: 0 <= i < |FindByGroup(store, owner, g)| ==> FindByGroup(store, owner, g)[i] in store
  {
    var keep := (r: Record) => r.owner == owner && r.group == Some(g) && r.state == Active;
    var f := Sorting.Filter(store, keep);
    Sorting.SortContents(f, IdBefore);
    var s := Sorting.Sort(f, IdBefore);
    forall i | 0 <= i < |s|
      ensures s[i] in store
    {
      assert s[i] in multiset(f);
      Sorting.FilterMember(store, keep, s[i]);
    }
  }

  lemma {:induction false} ExpandGood(e: Expansion, hits: seq<Hit>, store: seq<Record>, q: Request)
    requires GoodHits(e.hits, store, q) && DistinctIds(store)
    ensures GoodHits(ExpandAll(e, hits, store, q).hits, store, q) && Grows(e.hits, ExpandAll(e, hits, store, q).hits)
  {
    if hits != [] {
      hide Holds, GoodHits, FindByGroup, AddSiblings, DistinctIds;
      ExpandGood(e, hits[..|hits| - 1], store, q);
      var mid, h := ExpandAll(e, hits[..|hits| - 1], store, q), hits[|hits| - 1];
      if h.record.group.Some? {
        GroupInStore(store, q.owner, h.record.group.value);
        SiblingsGood(mid, FindByGroup(store, q.owner, h.record.group.value), h.channel, store, q);
      }
    }
  }

  lemma {:induction false} NoHitsGood(store: seq<Record>, q: Request)
    ensures GoodHits([], store, q)
  {
  }

  // The global ranking.

  /** All active records of the requested scopes. */
  function Pool(store: seq<Record>, q: Request): seq<Record> {
    Sorting.Filter(store, (r: Record) => r.owner == q.owner && r.scope in q.scopes && r.state == Active)
  }

  lemma {:induction false} RankIsOrder()
    ensures Sorting.Preorder(RankBefore) && Sorting.Preorder(HitBefore)
  {
  }

  lemma {:induction false} PoolMember(store: seq<Record>, q: Request, r: Record)
    ensures r in Pool(store, q) <==> Candidate(r, store, q)
  {
    Sorting.FilterMember(store, (r: Record) => r.owner == q.owner && r.scope in q.scopes && r.state == Active, r);
  }

  lemma {:induction false} FilterDistinct(store: seq<Record>, keep: Record -> bool)
    requires DistinctIds(store)
    ensures DistinctIds(Sorting.Filter(store, keep))
  {
    if store != [] {
      var init, last := store[..|store| - 1], store[|store| - 1];
      FilterDistinct(init, keep);
      var f := Sorting.Filter(init, keep);
      forall i | 0 <= i < |f|
        ensures f[i].id != last.id
      {
        Sorting.FilterMember(init, keep, f[i]);
      }
    }
  }

  lemma {:induction false} SortDistinct(rs: seq<Record>)
    requires DistinctIds(rs)
    ensures var s := Sorting.Sort(rs, RankBefore);
            DistinctIds(s) && Distinct(s) && Sorting.Sorted(s, RankBefore) && |s| == |rs|
    ensures forall r :: r in Sorting.Sort(rs, RankBefore) <==> r in rs
  {
    var s := Sorting.Sort(rs, RankBefore);
    Sorting.SortContents(rs, RankBefore);
    RankIsOrder();
    Sorting.SortSorted(rs, RankBefore);
    SameMembers(rs, s);
    DistinctFromIds(rs);
    DistinctRearranged(rs, s);
    IdsStayDistinct(rs, s);
  }

  lemma {:induction false} SameMembers(a: seq<Record>, b: seq<Record>)
    requires multiset(a) == multiset(b)
    ensures forall r :: r in b <==> r in a
  {
    forall r
      ensures r in b <==> r in a
    {
      assert r in b <==> r in multiset(b);
      assert r in a <==> r in multiset(a);
    }
  }

  lemma {:induction false} DistinctFromIds(rs: seq<Record>)
    requires DistinctIds(rs)
    ensures Distinct(rs)
  {
    forall i, j | 0 <= i < j < |rs|
      ensures rs[i] != rs[j]
    {
      assert rs[i].id != rs[j].id;
    }
  }

  lemma {:induction false} IdsStayDistinct(a: seq<Record>, b: seq<Record>)
    requires DistinctIds(a) && Distinct(b) && forall r :: r in b <==> r in a
    ensures DistinctIds(b)
  {
    forall i, j | 0 <= i < j < |b|
      ensures b[i].id != b[j].id
    {
      assert b[i] in a && b[j] in a;
      var m :| 0 <= m < |a| && a[m] == b[i];
      var n :| 0 <= n < |a| && a[n] == b[j];
      assert m != n;
      if m < n {
        assert a[m].id != a[n].id;
      } else {
        assert a[n].id != a[m].id;
      }
    }
  }

  function ToSet(s: seq<Record>): set<Record> {
    set r | r in s
  }

  lemma {:induction false} DistinctCard(s: seq<Record>)
    requires Distinct(s)
    ensures |ToSet(s)| == |s|
  {
    if s != [] {
      var init, last := s[..|s| - 1], s[|s| - 1];
      DistinctCard(init);
      assert s == init + [last];
      assert ToSet(s) == ToSet(init) + {last};
    }
  }

  lemma {:induction false} RankedAbove(whole: seq<Record>, i: nat)
    requires DistinctIds(whole) && Sorting.Sorted(whole, RankBefore) && i < |whole|
    ensures forall m :: 0 <= m < |whole| && RankBefore(whole[m], whole[i]) ==> m <= i
  {
    forall m | i < m < |whole|
      ensures !RankBefore(whole[m], whole[i])
    {
      assert RankBefore(whole[i], whole[m]) && whole[i].id != whole[m].id;
    }
  }

  /** In a ranking of a part, a record comes no later than in the ranking of the whole. */
  lemma {:induction false} NoLaterInPart(whole: seq<Record>, part: seq<Record>, i: nat, j: nat)
    requires Distinct(whole) && Distinct(part) && DistinctIds(whole)
    requires Sorting.Sorted(whole, RankBefore) && Sorting.Sorted(part, RankBefore)
    requires forall r :: r in part ==> r in whole
    requires i < |whole| && j < |part| && whole[i] == part[j]
    ensures j <= i
  {
    var before, above := part[..j], whole[..i];
    RankedAbove(whole, i);
    forall r | r in before
      ensures r in above
    {
      var k :| 0 <= k < j && part[k] == r;
      assert RankBefore(part[k], part[j]);
      assert r in whole;
      var m :| 0 <= m < |whole| && whole[m] == r;
      assert part[k] != part[j];
      assert above[m] == r;
    }
    DistinctCard(before);
    DistinctCard(above);
    SubsetCard(ToSet(before), ToSet(above));
  }

  lemma {:induction false} SubsetCard(a: set<Record>, b: set<Record>)
    requires a <= b
    ensures |a| <= |b|
  {
    assert b == a + (b - a);
  }

  /** Each of the first `k + 1` records of the global ranking is returned by the query of its scope. */
  lemma {:induction false} TopIsQueried(store: seq<Record>, q: Request, i: nat) returns (s: nat)
    requires DistinctIds(store)
    requires var ranking := Sorting.Sort(Pool(store, q), RankBefore);
             i < |ranking| && i <= q.maxCandidates
    ensures var ranking := Sorting.Sort(Pool(store, q), RankBefore);
            s < |q.scopes| && ranking[i] in FindRecent(store, q.owner, q.scopes[s], q.maxCandidates + 1)
  {
    hide RankBefore, DistinctIds, Distinct, Sorting.Sorted;
    var ranking := Sorting.Sort(Pool(store, q), RankBefore);
    var r := ranking[i];
    FilterDistinct(store, (r: Record) => r.owner == q.owner && r.scope in q.scopes && r.state == Active);
    SortDistinct(Pool(store, q));
    assert r in ranking;
    PoolMember(store, q, r);
    s :| 0 <= s < |q.scopes| && q.scopes[s] == r.scope;
    var active := ActiveOf(store, q.owner, r.scope);
    var keep := (r': Record) => ActiveIn(r', q.owner, r.scope);
    FilterDistinct(store, keep);
    SortDistinct(active);
    var part := Sorting.Sort(active, RankBefore);
    forall x | x in part
      ensures x in ranking
    {
      Sorting.FilterMember(store, keep, x);
      PoolMember(store, q, x);
    }
    Sorting.FilterMember(store, keep, r);
    assert r in part;
    var j :| 0 <= j < |part| && part[j] == r;
    NoLaterInPart(ranking, part, i, j);
    assert Take(part, q.maxCandidates + 1)[j] == r;
  }

  lemma {:induction false} RecordsInsert(hits: seq<Hit>, h: Hit)
    ensures Records(Sorting.Insert(hits, h, HitBefore)) == Sorting.Insert(Records(hits), h.record, RankBefore)
  {
    if hits == [] || HitBefore(hits[|hits| - 1], h) {
    } else {
      RecordsInsert(hits[..|hits| - 1], h);
      assert Records(hits)[..|hits| - 1] == Records(hits[..|hits| - 1]);
    }
  }

  lemma {:induction false} RecordsSort(hits: seq<Hit>)
    ensures Records(Sorting.Sort(hits, HitBefore)) == Sorting.Sort(Records(hits), RankBefore)
  {
    if hits != [] {
      RecordsSort(hits[..|hits| - 1]);
      RecordsInsert(Sorting.Sort(hits[..|hits| - 1], HitBefore), hits[|hits| - 1]);
      assert Records(hits)[..|hits| - 1] == Records(hits[..|hits| - 1]);
    }
  }

  lemma {:induction false} PrefixAgrees(a: seq<Record>, b: seq<Record>, n: nat)
    requires n <= |a| && n <= |b| && a[..n] == b[..n]
    ensures forall j :: 0 <= j < n ==> a[j] == b[j]
  {
    forall j | 0 <= j < n
      ensures a[j] == b[j]
    {
      assert a[..n][j] == b[..n][j];
    }
  }

  /** Two rankings, one of a part of the other that still holds its first `n` records, agree there. */
  lemma {:induction false} SameTop(whole: seq<Record>, part: seq<Record>, n: nat)
    requires Distinct(whole) && Distinct(part) && DistinctIds(whole)
    requires Sorting.Sorted(whole, RankBefore) && Sorting.Sorted(part, RankBefore)
    requires forall r :: r in part ==> r in whole
    requires n <= |whole| && forall i :: 0 <= i < n ==> whole[i] in part
    ensures n <= |part| && part[..n] == whole[..n]
  {
    if n > 0 {
      SameTop(whole, part, n - 1);
      var r := whole[n - 1];
      var j :| 0 <= j < |part| && part[j] == r;
      NoLaterInPart(whole, part, n - 1, j);
      PrefixAgrees(part, whole, n - 1);
      assert part[..n] == part[..n - 1] + [part[n - 1]] && whole[..n] == whole[..n - 1] + [r];
    }
  }

  lemma {:induction false} HoldsRecord(hits: seq<Hit>, r: Record)
    requires Holds(hits, r)
    ensures r in Records(hits)
  {
    var i :| 0 <= i < |hits| && hits[i].record == r;
    assert Records(hits)[i] == r;
  }

  lemma {:induction false} PartIsSmaller(whole: seq<Record>, part: seq<Record>)
    requires Distinct(whole) && Distinct(part) && forall r :: r in part ==> r in whole
    ensures |part| <= |whole|
  {
    DistinctCard(whole);
    DistinctCard(part);
    SubsetCard(ToSet(part), ToSet(whole));
  }

  lemma {:induction false} TakeRecords(hits: seq<Hit>, k: nat)
    ensures Records(Take(hits, k)) == Take(Records(hits), k)
  {
  }

  lemma {:induction false} TopAgrees(whole: seq<Record>, part: seq<Record>, n: nat, k: nat)
    requires n == Min(|whole|, k + 1) && n <= |part| <= |whole| && part[..n] == whole[..n]
    ensures Take(part, k) == Take(whole, k) && (|part| > k <==> |whole| > k)
  {
    if |whole| > k {
      assert part[..k] == part[..n][..k] && whole[..k] == whole[..n][..k];
    }
  }

  // What every recall guarantees, without hypotheses.

  ghost predicate Fits(e: Expansion, q: Request) {
    && (forall i :: 0 <= i < |e.hits| ==> Revalidates(e.hits[i].record, q) && KindOk(e.hits[i].record, q))
    && (forall i :: 0 <= i < |e.rejected| ==> !Revalidates(e.rejected[i], q))
  }

  lemma {:induction false} FilterGood(hits: seq<Hit>, keep: Hit -> bool, store: seq<Record>, q: Request)
    requires GoodHits(hits, store, q)
    ensures GoodHits(Sorting.Filter(hits, keep), store, q)
  {
    if hits != [] {
      var init, last := hits[..|hits| - 1], hits[|hits| - 1];
      GoodPrefix(hits, store, q);
      FilterGood(init, keep, store, q);
      var f := Sorting.Filter(init, keep);
      forall i | 0 <= i < |f|
        ensures f[i].record.id != last.record.id
      {
        Sorting.FilterMember(init, keep, f[i]);
        var j :| 0 <= j < |init| && init[j] == f[i];
        assert Records(hits)[j].id != Records(hits)[|hits| - 1].id;
      }
      if keep(last) {
        GoodSnoc(f, last, store, q);
      }
    }
  }

  lemma {:induction false} GoodPrefix(hits: seq<Hit>, store: seq<Record>, q: Request)
    requires GoodHits(hits, store, q) && hits != []
    ensures GoodHits(hits[..|hits| - 1], store, q)
  {
    var init := hits[..|hits| - 1];
    assert forall i :: 0 <= i < |init| ==> Records(init)[i] == Records(hits)[i];
  }

  lemma {:induction false} GoodSnoc(hits: seq<Hit>, h: Hit, store: seq<Record>, q: Request)
    requires GoodHits(hits, store, q) && Candidate(h.record, store, q)
    requires forall i :: 0 <= i < |hits| ==> hits[i].record.id != h.record.id
    ensures GoodHits(hits + [h], store, q)
  {
    hide Candidate;
    var r := Records(hits + [h]);
    assert forall i :: 0 <= i < |hits| ==> r[i] == Records(hits)[i];
  }

  lemma {:induction false} GatheredFits(hits: seq<Hit>, store: seq<Record>, q: Request)
    requires GoodHits(hits, store, q)
    ensures var kept := KindFiltered(Validated(hits, q), q);
            GoodHits(kept, store, q) && Fits(Expansion(kept, Unvalidated(hits, q)), q)
  {
    var valid := (h: Hit) => Revalidates(h.record, q);
    var kind := (h: Hit) => KindOk(h.record, q);
    var invalid := (h: Hit) => !Revalidates(h.record, q);
    FilterGood(hits, valid, store, q);
    FilterGood(Validated(hits, q), kind, store, q);
    var kept := KindFiltered(Validated(hits, q), q);
    forall i | 0 <= i < |kept|
      ensures Revalidates(kept[i].record, q) && KindOk(kept[i].record, q)
    {
      Sorting.FilterMember(Validated(hits, q), kind, kept[i]);
      Sorting.FilterMember(hits, valid, kept[i]);
    }
    forall i | 0 <= i < |Unvalidated(hits, q)|
      ensures !Revalidates(Unvalidated(hits, q)[i], q)
    {
      Sorting.FilterMember(hits, invalid, Sorting.Filter(hits, invalid)[i]);
    }
  }

  lemma {:induction false} SiblingsFit(e: Expansion, rs: seq<Record>, channel: Channel, q: Request)
    requires Fits(e, q)
    ensures Fits(AddSiblings(e, rs, channel, q), q)
  {
    if rs != [] {
      SiblingsFit(e, rs[..|rs| - 1], channel, q);
    }
  }

  lemma {:induction false} ExpandFits(e: Expansion, hits: seq<Hit>, store: seq<Record>, q: Request)
    requires Fits(e, q)
    ensures Fits(ExpandAll(e, hits, store, q), q)
  {
    if hits != [] {
      hide Fits;
      ExpandFits(e, hits[..|hits| - 1], store, q);
      var mid, h := ExpandAll(e, hits[..|hits| - 1], store, q), hits[|hits| - 1];
      if h.record.group.Some? {
        SiblingsFit(mid, FindByGroup(store, q.owner, h.record.group.value), h.channel, q);
      }
    }
  }

  lemma {:induction false} GatheredGood(store: seq<Record>, q: Request)
    requires DistinctIds(store)
    ensures GoodHits(Gathered(store, q), store, q)
  {
    hide GoodHits, PinnedStage, KeysStage, RecentStage, DistinctIds;
    NoHitsGood(store, q);
    var p := PinnedStage([], q.scopes, store, q);
    PinnedGood([], q.scopes, store, q);
    KeysGood(p, q.keys, store, q);
    RecentGood(KeysStage(p, q.keys, store, q), q.scopes, store, q, |q.scopes|,
               Record(0, 0, UserScope, "", Active, None, 0.0, false, 0, None, None));
  }

  lemma {:induction false} ExpandedFits(store: seq<Record>, q: Request)
    requires DistinctIds(store)
    ensures GoodHits(Expanded(store, q).hits, store, q) && Fits(Expanded(store, q), q)
  {
    hide GoodHits, Fits, DistinctIds, Gathered, Validated, KindFiltered, Unvalidated;
    var all := Gathered(store, q);
    GatheredGood(store, q);
    GatheredFits(all, store, q);
    var kept := KindFiltered(Validated(all, q), q);
    ExpandGood(Expansion(kept, Unvalidated(all, q)), kept, store, q);
    ExpandFits(Expansion(kept, Unvalidated(all, q)), kept, store, q);
  }

  /** Every recall: at most the asked number of records, exactly that number when truncated; each an
      active, still valid record of a requested scope and kind, none twice, best first; and everything
      reported as rejected failed revalidation. */
  lemma {:induction false} RecallSound(store: seq<Record>, q: Request)
    requires DistinctIds(store)
    ensures var r := RecallResult(store, q);
            && |r.hits| <= q.maxCandidates && (r.truncated ==> |r.hits| == q.maxCandidates)
            && DistinctIds(Records(r.hits)) && Sorting.Sorted(Records(r.hits), RankBefore)
            && (forall i :: 0 <= i < |r.hits| ==>
                  Candidate(r.hits[i].record, store, q) && Revalidates(r.hits[i].record, q)
                    && KindOk(r.hits[i].record, q))
            && (forall i :: 0 <= i < |r.rejected| ==> !Revalidates(r.rejected[i], q))
  {
    var e := Expanded(store, q);
    var sorted := Sorting.Sort(e.hits, HitBefore);
    ExpandedFits(store, q);
    hide Expanded, Candidate, Revalidates, KindOk;
    RecordsSort(e.hits);
    SortDistinct(Records(e.hits));
    Sorting.SortContents(e.hits, HitBefore);
    TakeRecords(sorted, q.maxCandidates);
    forall i | 0 <= i < |sorted|
      ensures Candidate(sorted[i].record, store, q) && Revalidates(sorted[i].record, q) && KindOk(sorted[i].record, q)
    {
      Sorting.SortMember(e.hits, HitBefore, sorted[i]);
    }
  }

  // Recall against the ranking of everything that matches.

  /** All active, valid records of the requested scopes and kinds. */
  function Matching(store: seq<Record>, q: Request): seq<Record> {
    Sorting.Filter(store, (r: Record) => Revalidates(r, q) && KindOk(r, q))
  }

  lemma {:induction false} MatchingMember(store: seq<Record>, q: Request, r: Record)
    ensures r in Matching(store, q) <==> Candidate(r, store, q) && Revalidates(r, q) && KindOk(r, q)
  {
    Sorting.FilterMember(store, (r: Record) => Revalidates(r, q) && KindOk(r, q), r);
  }

  /** How many active records of its own scope rank above `r`. */
  function Above(store: seq<Record>, q: Request, r: Record): nat {
    |Sorting.Filter(store, (x: Record) => ActiveIn(x, q.owner, r.scope) && x != r && RankBefore(x, r))|
  }

  /** No more active records of its scope rank above it than a query reads beside it. */
  predicate InReach(store: seq<Record>, q: Request, r: Record) {
    Above(store, q, r) <= q.maxCandidates
  }

  lemma {:induction false} AboveIsPlace(store: seq<Record>, q: Request, r: Record, j: nat)
    requires DistinctIds(store)
    requires var part := Sorting.Sort(ActiveOf(store, q.owner, r.scope), RankBefore);
             j < |part| && part[j] == r
    ensures Above(store, q, r) == j
  {
    var keep := (x: Record) => ActiveIn(x, q.owner, r.scope);
    var higher := (x: Record) => ActiveIn(x, q.owner, r.scope) && x != r && RankBefore(x, r);
    var part, above := Sorting.Sort(ActiveOf(store, q.owner, r.scope), RankBefore), Sorting.Filter(store, higher);
    FilterDistinct(store, keep);
    SortDistinct(Sorting.Filter(store, keep));
    FilterDistinct(store, higher);
    DistinctFromIds(above);
    forall x
      ensures x in above <==> x in part && x != r && RankBefore(x, r)
    {
      Sorting.FilterMember(store, higher, x);
      Sorting.FilterMember(store, keep, x);
    }
    PlaceCounts(part, above, j);
  }

  lemma {:induction false} PlaceCounts(part: seq<Record>, above: seq<Record>, j: nat)
    requires Distinct(part) && DistinctIds(part) && Sorting.Sorted(part, RankBefore) && Distinct(above) && j < |part|
    requires forall x :: x in above <==> x in part && x != part[j] && RankBefore(x, part[j])
    ensures |above| == j
  {
    var before := part[..j];
    RankedAbove(part, j);
    forall x
      ensures x in above <==> x in before
    {
      if x in above {
        var m :| 0 <= m < |part| && part[m] == x;
        assert m < j && before[m] == x;
      }
      if x in before {
        var m :| 0 <= m < j && part[m] == x;
      }
    }
    DistinctCard(before);
    DistinctCard(above);
    assert ToSet(before) == ToSet(above);
  }

  /** The query of its scope returns a record exactly when that is in reach. */
  lemma {:induction false} QueriedWhenInReach(store: seq<Record>, q: Request, r: Record)
    requires DistinctIds(store) && Candidate(r, store, q)
    ensures InReach(store, q, r) <==> r in FindRecent(store, q.owner, r.scope, q.maxCandidates + 1)
  {
    var keep := (x: Record) => ActiveIn(x, q.owner, r.scope);
    var part := Sorting.Sort(ActiveOf(store, q.owner, r.scope), RankBefore);
    FilterDistinct(store, keep);
    SortDistinct(Sorting.Filter(store, keep));
    Sorting.FilterMember(store, keep, r);
    assert r in part;
    var j :| 0 <= j < |part| && part[j] == r;
    hide Above, ActiveOf;
    AboveIsPlace(store, q, r, j);
    TakeMember(part, q.maxCandidates + 1, j);
  }

  lemma {:induction false} TakeMember(part: seq<Record>, n: nat, j: nat)
    requires Distinct(part) && j < |part|
    ensures part[j] in Take(part, n) <==> j < n
  {
    if j < n {
      assert Take(part, n)[j] == part[j];
    }
  }

  /** What matches and is in reach is among the expanded hits. */
  lemma {:induction false} MatchingKept(store: seq<Record>, q: Request, r: Record)
    requires DistinctIds(store) && r in Matching(store, q) && InReach(store, q, r)
    ensures r in Records(Expanded(store, q).hits)
  {
    MatchingMember(store, q, r);
    QueriedWhenInReach(store, q, r);
    var s :| 0 <= s < |q.scopes| && q.scopes[s] == r.scope;
    hide GoodHits, FindRecent, PinnedStage, KeysStage, RecentStage, ExpandAll, DistinctIds, Candidate, InReach,
      Matching;
    var all := Gathered(store, q);
    GatheredGood(store, q);
    var p := PinnedStage([], q.scopes, store, q);
    NoHitsGood(store, q);
    PinnedGood([], q.scopes, store, q);
    KeysGood(p, q.keys, store, q);
    RecentGood(KeysStage(p, q.keys, store, q), q.scopes, store, q, s, r);
    var kept := KindFiltered(Validated(all, q), q);
    FiltersHold(all, q, r);
    GatheredFits(all, store, q);
    ExpandGood(Expansion(kept, Unvalidated(all, q)), kept, store, q);
    HoldsRecord(Expanded(store, q).hits, r);
  }

  lemma {:induction false} FiltersHold(hits: seq<Hit>, q: Request, r: Record)
    requires Holds(hits, r) && Revalidates(r, q) && KindOk(r, q)
    ensures Holds(KindFiltered(Validated(hits, q), q), r)
  {
    var i :| 0 <= i < |hits| && hits[i].record == r;
    var valid := Validated(hits, q);
    Sorting.FilterMember(hits, (h: Hit) => Revalidates(h.record, q), hits[i]);
    Sorting.FilterMember(valid, (h: Hit) => KindOk(h.record, q), hits[i]);
    var kept := KindFiltered(valid, q);
    var j :| 0 <= j < |kept| && kept[j] == hits[i];
  }

  /** The ranking of what matches, and that of the expanded hits, a part of it. */
  lemma {:induction false} Rankings(store: seq<Record>, q: Request)
    requires DistinctIds(store)
    ensures var whole := Sorting.Sort(Matching(store, q), RankBefore);
            var part := Sorting.Sort(Records(Expanded(store, q).hits), RankBefore);
            && DistinctIds(whole) && Distinct(whole) && Sorting.Sorted(whole, RankBefore)
            && |whole| == |Matching(store, q)|
            && Distinct(part) && Sorting.Sorted(part, RankBefore) && |part| == |Expanded(store, q).hits|
            && (forall r :: r in part ==> r in whole) && (forall r :: r in whole <==> r in Matching(store, q))
            && (forall r :: r in part <==> r in Records(Expanded(store, q).hits))
            && Records(RecallResult(store, q).hits) == Take(part, q.maxCandidates)
  {
    ExpandedFits(store, q);
    FilterDistinct(store, (r: Record) => Revalidates(r, q) && KindOk(r, q));
    hide Expanded, Revalidates, KindOk, Candidate;
    var e := Expanded(store, q);
    SortDistinct(Matching(store, q));
    SortDistinct(Records(e.hits));
    forall r | r in Records(e.hits)
      ensures r in Matching(store, q)
    {
      var i :| 0 <= i < |e.hits| && Records(e.hits)[i] == r;
      MatchingMember(store, q, r);
    }
    RecordsSort(e.hits);
    TakeRecords(Sorting.Sort(e.hits, HitBefore), q.maxCandidates);
  }

  /** The first `n` of the ranking of everything that matches are in reach. */
  ghost predicate TopInReach(store: seq<Record>, q: Request, n: nat) {
    var whole := Sorting.Sort(Matching(store, q), RankBefore);
    forall i :: 0 <= i < |whole| && i < n ==> InReach(store, q, whole[i])
  }

  /** Recall equals the ranking of everything that matches, for every request: when its first
      `maxCandidates` are in reach, they are the hits, in order; and when one more is, `truncated` says
      whether there are more. Every query reads at most `maxCandidates + 1` records of one scope. */
  lemma {:induction false} RecallIsTop(store: seq<Record>, q: Request)
    requires DistinctIds(store)
    ensures TopInReach(store, q, q.maxCandidates) ==>
              Records(RecallResult(store, q).hits)
                == Take(Sorting.Sort(Matching(store, q), RankBefore), q.maxCandidates)
    ensures TopInReach(store, q, q.maxCandidates + 1) ==>
              (RecallResult(store, q).truncated <==> |Matching(store, q)| > q.maxCandidates)
  {
    hide Matching, InReach, Expanded;
    Rankings(store, q);
    var k := q.maxCandidates;
    var whole := Sorting.Sort(Matching(store, q), RankBefore);
    var part := Sorting.Sort(Records(Expanded(store, q).hits), RankBefore);
    PartIsSmaller(whole, part);
    forall i | 0 <= i < |whole| && InReach(store, q, whole[i])
      ensures whole[i] in part
    {
      assert whole[i] in whole;
      MatchingKept(store, q, whole[i]);
    }
    if TopInReach(store, q, k) {
      SameTop(whole, part, Min(|whole|, k));
      TopTaken(whole, part, k);
    }
    if TopInReach(store, q, k + 1) {
      SameTop(whole, part, Min(|whole|, k + 1));
    }
  }

  lemma {:induction false} TopTaken(whole: seq<Record>, part: seq<Record>, k: nat)
    requires var n := Min(|whole|, k);
             n <= |part| <= |whole| && part[..n] == whole[..n]
    ensures Take(part, k) == Take(whole, k)
  {
  }

  /** No kinds are required and every active record of the requested scopes passes revalidation. */
  ghost predicate AllPass(store: seq<Record>, q: Request) {
    q.kinds == {} && forall r :: Candidate(r, store, q) ==> Revalidates(r, q)
  }

  lemma {:induction false} FilterAlike(store: seq<Record>, a: Record -> bool, b: Record -> bool)
    requires forall r :: r in store ==> a(r) == b(r)
    ensures Sorting.Filter(store, a) == Sorting.Filter(store, b)
  {
    if store != [] {
      FilterAlike(store[..|store| - 1], a, b);
    }
  }

  lemma {:induction false} AllMatch(store: seq<Record>, q: Request)
    requires AllPass(store, q)
    ensures Matching(store, q) == Pool(store, q)
  {
    forall r | r in store
      ensures Revalidates(r, q) && KindOk(r, q) <==> r.owner == q.owner && r.scope in q.scopes && r.state == Active
    {
      assert Candidate(r, store, q) ==> Revalidates(r, q);
    }
    FilterAlike(store, (r: Record) => Revalidates(r, q) && KindOk(r, q),
                (r: Record) => r.owner == q.owner && r.scope in q.scopes && r.state == Active);
  }

  /** Then everything that matters is in reach, and the hits are the best `maxCandidates` active records of
      all the scopes together, whatever the queries, pins, keys and groups add. */
  lemma {:induction false} RecallIsGlobalTop(store: seq<Record>, q: Request)
    requires DistinctIds(store) && AllPass(store, q)
    ensures Records(RecallResult(store, q).hits) == Take(Sorting.Sort(Pool(store, q), RankBefore), q.maxCandidates)
    ensures RecallResult(store, q).truncated <==> |Pool(store, q)| > q.maxCandidates
  {
    hide AllPass, Pool, InReach, Matching, FindRecent, RecallResult;
    AllMatch(store, q);
    var whole := Sorting.Sort(Pool(store, q), RankBefore);
    Rankings(store, q);
    forall i | 0 <= i < |whole| && i < q.maxCandidates + 1
      ensures InReach(store, q, whole[i])
    {
      assert whole[i] in whole;
      MatchingMember(store, q, whole[i]);
      var s := TopIsQueried(store, q, i);
      QueriedInScope(store, q, q.scopes[s], whole[i], q.maxCandidates + 1);
      QueriedWhenInReach(store, q, whole[i]);
    }
    RecallIsTop(store, q);
  }

  lemma {:induction false} QueriedInScope(store: seq<Record>, q: Request, scope: Scope, r: Record, n: nat)
    requires r in FindRecent(store, q.owner, scope, n)
    ensures r.scope == scope
  {
    var keep := (x: Record) => ActiveIn(x, q.owner, scope);
    Sorting.SortMember(ActiveOf(store, q.owner, scope), RankBefore, r);
    Sorting.FilterMember(store, keep, r);
  }

  // Where nothing but the recent-active queries adds records.

  /** No keys are asked for, and no candidate is pinned or in a conflict group. */
  ghost predicate Plain(store: seq<Record>, q: Request) {
    q.keys == [] && forall r :: Candidate(r, store, q) ==> !r.pinned && r.group.None?
  }

  lemma {:induction false} PinnedNone(store: seq<Record>, scopes: seq<Scope>, q: Request)
    requires Plain(store, q) && forall i :: 0 <= i < |scopes| ==> scopes[i] in q.scopes
    ensures PinnedStage([], scopes, store, q) == []
  {
    if scopes != [] {
      var init, last := scopes[..|scopes| - 1], scopes[|scopes| - 1];
      PinnedNone(store, init, q);
      var pinned := (r: Record) => ActiveIn(r, q.owner, last) && r.pinned;
      forall i | 0 <= i < |store|
        ensures !pinned(store[i])
      {
        assert ActiveIn(store[i], q.owner, last) ==> Candidate(store[i], store, q);
      }
      Sorting.FilterNone(store, pinned);
    }
  }

  /** Every hit comes from the query of its own scope. */
  ghost predicate AllQueried(hits: seq<Hit>, store: seq<Record>, q: Request) {
    forall i :: 0 <= i < |hits| ==>
      hits[i].record in FindRecent(store, q.owner, hits[i].record.scope, q.maxCandidates + 1)
  }

  lemma {:induction false} AddQueried(hits: seq<Hit>, rs: seq<Record>, store: seq<Record>, q: Request)
    requires AllQueried(hits, store, q)
    requires forall i :: 0 <= i < |rs| ==> rs[i] in FindRecent(store, q.owner, rs[i].scope, q.maxCandidates + 1)
    ensures AllQueried(AddAll(hits, rs, RecentActive), store, q)
  {
    if rs != [] {
      hide FindRecent;
      AddQueried(hits, rs[..|rs| - 1], store, q);
    }
  }

  lemma {:induction false} RecentQueried(scopes: seq<Scope>, store: seq<Record>, q: Request)
    ensures AllQueried(RecentStage([], scopes, store, q), store, q)
  {
    if scopes != [] {
      hide FindRecent;
      var init, last := scopes[..|scopes| - 1], scopes[|scopes| - 1];
      RecentQueried(init, store, q);
      var found := FindRecent(store, q.owner, last, q.maxCandidates + 1);
      forall i | 0 <= i < |found|
        ensures found[i] in FindRecent(store, q.owner, found[i].scope, q.maxCandidates + 1)
      {
        QueriedInScope(store, q, last, found[i], q.maxCandidates + 1);
      }
      AddQueried(RecentStage([], init, store, q), found, store, q);
    }
  }

  lemma {:induction false} NoGroups(e: Expansion, hits: seq<Hit>, store: seq<Record>, q: Request)
    requires forall i :: 0 <= i < |hits| ==> hits[i].record.group.None?
    ensures ExpandAll(e, hits, store, q) == e
  {
    if hits != [] {
      NoGroups(e, hits[..|hits| - 1], store, q);
    }
  }

  lemma {:induction false} FilterQueried(hits: seq<Hit>, store: seq<Record>, q: Request)
    requires AllQueried(hits, store, q)
    ensures AllQueried(KindFiltered(Validated(hits, q), q), store, q)
  {
    hide FindRecent;
    var valid, kept := Validated(hits, q), KindFiltered(Validated(hits, q), q);
    forall i | 0 <= i < |kept|
      ensures kept[i] in hits
    {
      Sorting.FilterMember(valid, (h: Hit) => KindOk(h.record, q), kept[i]);
      Sorting.FilterMember(hits, (h: Hit) => Revalidates(h.record, q), kept[i]);
    }
  }

  lemma {:induction false} PlainQueried(store: seq<Record>, q: Request)
    requires DistinctIds(store) && Plain(store, q)
    ensures AllQueried(Expanded(store, q).hits, store, q)
  {
    PinnedNone(store, q.scopes, q);
    assert KeysStage([], [], store, q) == [];
    RecentQueried(q.scopes, store, q);
    var all := Gathered(store, q);
    assert all == RecentStage([], q.scopes, store, q);
    FilterQueried(all, store, q);
    GatheredGood(store, q);
    GatheredFits(all, store, q);
    var kept := KindFiltered(Validated(all, q), q);
    hide FindRecent, RecentStage, PinnedStage, Fits, AllQueried;
    NoGroups(Expansion(kept, Unvalidated(all, q)), kept, store, q);
  }

  /** The matching records in reach. */
  function Reached(store: seq<Record>, q: Request): seq<Record> {
    Sorting.Filter(Matching(store, q), (r: Record) => InReach(store, q, r))
  }

  lemma {:induction false} ExpandedIsReached(store: seq<Record>, q: Request, r: Record)
    requires DistinctIds(store) && Plain(store, q)
    ensures r in Records(Expanded(store, q).hits) <==> r in Matching(store, q) && InReach(store, q, r)
  {
    PlainQueried(store, q);
    ExpandedFits(store, q);
    hide Expanded, InReach, FindRecent, Candidate, Revalidates, KindOk, Plain, Matching;
    var hits := Expanded(store, q).hits;
    MatchingMember(store, q, r);
    if r in Records(hits) {
      var i :| 0 <= i < |hits| && Records(hits)[i] == r;
      QueriedWhenInReach(store, q, r);
    } else if r in Matching(store, q) && InReach(store, q, r) {
      MatchingKept(store, q, r);
    }
  }

  lemma {:induction false} MatchingDistinct(store: seq<Record>, q: Request)
    requires DistinctIds(store)
    ensures DistinctIds(Matching(store, q))
  {
    FilterDistinct(store, (r: Record) => Revalidates(r, q) && KindOk(r, q));
  }

  lemma {:induction false} ReachedRanking(store: seq<Record>, q: Request)
    requires DistinctIds(store)
    ensures var reached := Reached(store, q);
            var top := Sorting.Sort(reached, RankBefore);
            && DistinctIds(top) && Distinct(top) && Sorting.Sorted(top, RankBefore) && |top| == |reached|
            && (forall r :: r in top <==> r in Matching(store, q) && InReach(store, q, r))
  {
    hide InReach, Matching, RankBefore, Distinct, DistinctIds;
    MatchingDistinct(store, q);
    FilterDistinct(Matching(store, q), (r: Record) => InReach(store, q, r));
    SortDistinct(Reached(store, q));
    forall r
      ensures r in Reached(store, q) <==> r in Matching(store, q) && InReach(store, q, r)
    {
      Sorting.FilterMember(Matching(store, q), (r: Record) => InReach(store, q, r), r);
    }
  }

  lemma {:induction false} SameRanking(a: seq<Record>, b: seq<Record>)
    requires Distinct(a) && Distinct(b) && DistinctIds(a) && forall r :: r in a <==> r in b
    requires Sorting.Sorted(a, RankBefore) && Sorting.Sorted(b, RankBefore)
    ensures a == b
  {
    hide RankBefore;
    forall i | 0 <= i < |a|
      ensures a[i] in b
    {
      assert a[i] in a;
    }
    SameTop(a, b, |a|);
    PartIsSmaller(a, b);
  }

  /** A plain recall in full: the best `maxCandidates` of the matching records in reach, truncated exactly
      when more of these are. */
  lemma {:induction false} PlainRecall(store: seq<Record>, q: Request)
    requires DistinctIds(store) && Plain(store, q)
    ensures Records(RecallResult(store, q).hits) == Take(Sorting.Sort(Reached(store, q), RankBefore), q.maxCandidates)
    ensures RecallResult(store, q).truncated <==> |Reached(store, q)| > q.maxCandidates
  {
    hide Expanded, InReach, Matching, Plain, Reached, RankBefore, Distinct, DistinctIds;
    Rankings(store, q);
    ReachedRanking(store, q);
    var part := Sorting.Sort(Records(Expanded(store, q).hits), RankBefore);
    var top := Sorting.Sort(Reached(store, q), RankBefore);
    forall r
      ensures r in top <==> r in part
    {
      ExpandedIsReached(store, q, r);
    }
    SameRanking(top, part);
  }

  /** In a plain recall the hits are the best `maxCandidates` of everything that matches if and only if
      these are in reach. */
  lemma {:induction false} TopExactlyWhen(store: seq<Record>, q: Request)
    requires DistinctIds(store) && Plain(store, q)
    ensures Records(RecallResult(store, q).hits) == Take(Sorting.Sort(Matching(store, q), RankBefore), q.maxCandidates)
            <==> TopInReach(store, q, q.maxCandidates)
  {
    hide Expanded, InReach, Matching, Plain;
    RecallIsTop(store, q);
    Rankings(store, q);
    var whole := Sorting.Sort(Matching(store, q), RankBefore);
    var part := Sorting.Sort(Records(Expanded(store, q).hits), RankBefore);
    if Take(part, q.maxCandidates) == Take(whole, q.maxCandidates) {
      forall i | 0 <= i < |whole| && i < q.maxCandidates
        ensures InReach(store, q, whole[i])
      {
        assert Take(whole, q.maxCandidates)[i] == whole[i];
        assert whole[i] in Take(part, q.maxCandidates);
        assert whole[i] in part;
        ExpandedIsReached(store, q, whole[i]);
      }
    }
  }

  // The hypotheses matter.

  lemma {:induction false} NothingPinned(store: seq<Record>, owner: nat, scope: Scope, limit: nat)
    requires forall i :: 0 <= i < |store| ==> !store[i].pinned
    ensures FindPinned(store, owner, scope, limit) == []
  {
    Sorting.FilterNone(store, (r: Record) => ActiveIn(r, owner, scope) && r.pinned);
  }

  lemma {:induction false} AllActive(store: seq<Record>, owner: nat, scope: Scope)
    requires forall i :: 0 <= i < |store| ==> ActiveIn(store[i], owner, scope)
    ensures ActiveOf(store, owner, scope) == store
  {
    Sorting.FilterAll(store, (r: Record) => ActiveIn(r, owner, scope));
  }

  lemma {:induction false} AlreadyRanked(s: seq<Record>)
    requires forall i :: 0 <= i < |s| - 1 ==> RankBefore(s[i], s[i + 1])
    ensures Sorting.Sort(s, RankBefore) == s
  {
    if s != [] {
      AlreadyRanked(s[..|s| - 1]);
    }
  }

  lemma {:induction false} NoneMatches(hits: seq<Hit>, q: Request)
    requires forall i :: 0 <= i < |hits| ==> !(Revalidates(hits[i].record, q) && KindOk(hits[i].record, q))
    ensures KindFiltered(Validated(hits, q), q) == []
  {
    var keep := (h: Hit) => Revalidates(h.record, q);
    forall i | 0 <= i < |Validated(hits, q)|
      ensures !KindOk(Validated(hits, q)[i].record, q)
    {
      Sorting.FilterMember(hits, keep, Validated(hits, q)[i]);
    }
    Sorting.FilterNone(Validated(hits, q), (h: Hit) => KindOk(h.record, q));
  }

  lemma {:induction false} TwoGathered(q: Request, store: seq<Record>, a: Record, b: Record)
    requires q.scopes == [UserScope] && q.keys == [] && q.maxCandidates == 1 && a.id != b.id
    requires FindPinned(store, q.owner, UserScope, 2) == [] && FindRecent(store, q.owner, UserScope, 2) == [a, b]
    ensures Gathered(store, q) == [Hit(a, RecentActive), Hit(b, RecentActive)]
  {
    hide FindRecent, FindPinned;
    assert q.scopes[..0] == [];
    assert PinnedStage([], q.scopes, store, q) == [];
    assert [a, b][..1] == [a] && [a][..0] == [];
    assert AddAll([], [a], RecentActive) == [Hit(a, RecentActive)];
    assert KeysStage([], q.keys, store, q) == [];
    assert RecentStage([], [], store, q) == [];
    assert AddAll([], [a, b], RecentActive) == [Hit(a, RecentActive), Hit(b, RecentActive)];
  }

  /** Two better records of the scope that do not match hide a third that does. */
  lemma {:induction false} TwoHideOne(q: Request, a: Record, b: Record, c: Record)
    requires q.scopes == [UserScope] && q.keys == [] && q.maxCandidates == 1 && a.id != b.id
    requires forall r :: r in [a, b, c] ==> ActiveIn(r, q.owner, UserScope) && !r.pinned
    requires RankBefore(a, b) && RankBefore(b, c)
    requires !(Revalidates(a, q) && KindOk(a, q)) && !(Revalidates(b, q) && KindOk(b, q))
    ensures RecallResult([a, b, c], q).hits == []
  {
    var store := [a, b, c];
    assert store[0] in store && store[1] in store && store[2] in store;
    AllActive(store, q.owner, UserScope);
    AlreadyRanked(store);
    NothingPinned(store, q.owner, UserScope, 2);
    assert FindRecent(store, q.owner, UserScope, 2) == [a, b];
    hide RankBefore, Revalidates, KindOk, FindRecent, FindPinned, Gathered;
    TwoGathered(q, store, a, b);
    NoneMatches(Gathered(store, q), q);
    assert Expanded(store, q).hits == [];
  }

  /** A required kind is looked for only among the records already read: with two better records of
      another kind, a matching record of the scope is not recalled. */
  lemma {:induction false} RequiredKindCanHide(q: Request, a: Record, b: Record, c: Record)
    requires q == Request(0, [UserScope], [], {"fact"}, 1, 10)
    requires a == Record(1, 0, UserScope, "note", Active, None, 0.9, false, 0, None, None)
    requires b == Record(2, 0, UserScope, "note", Active, None, 0.8, false, 0, None, None)
    requires c == Record(3, 0, UserScope, "fact", Active, None, 0.7, false, 0, None, None)
    ensures RecallResult([a, b, c], q).hits == [] && Revalidates(c, q) && KindOk(c, q)
  {
    TwoHideOne(q, a, b, c);
  }

  /** Nor is a valid record behind two better ones that are still active but expired. */
  lemma {:induction false} ExpiredCanHide(q: Request, a: Record, b: Record, c: Record)
    requires q == Request(0, [UserScope], [], {}, 1, 10)
    requires a == Record(1, 0, UserScope, "note", Active, None, 0.9, false, 0, Some(10), None)
    requires b == Record(2, 0, UserScope, "note", Active, None, 0.8, false, 0, Some(5), None)
    requires c == Record(3, 0, UserScope, "note", Active, None, 0.7, false, 0, None, None)
    ensures RecallResult([a, b, c], q).hits == [] && Revalidates(c, q) && KindOk(c, q)
  {
    TwoHideOne(q, a, b, c);
  }
}
