/** The audit log: each event hashes its predecessor's hash together with its own canonical bytes. */
module AuditChain {
  import opened Seqs

  /** SHA-256 in lower-case hex over ASCII and canonical JSON, taken as given. */
  type Hash = string -> string

  predicate HexDigit(c: char) {
    ('0' <= c <= '9') || ('a' <= c <= 'f')
  }

  predicate HexDigest(s: string) {
    |s| == 64 && forall i :: 0 <= i < 64 ==> HexDigit(s[i])
  }

  ghost predicate HashShape(hash: Hash) {
    forall s :: HexDigest(hash(s))
  }

  /** `draft.canonical_bytes()`: a JSON object, so it begins with a brace. */
  predicate Canonical(c: string) {
    c != "" && c[0] == '{'
  }

  datatype Entry = Entry(canonical: string, previous: Option<string>, hash: string)

  function Preimage(previous: Option<string>, canonical: string): string {
    match previous
    case None => canonical
    case Some(h) => h + canonical
  }

  function Extended(log: seq<Entry>, head: Option<string>, canonical: string, hash: Hash): seq<Entry> {
    log + [Entry(canonical, head, hash(Preimage(head, canonical)))]
  }

  /** Every entry names its predecessor's hash, and hashes it together with its own bytes. */
  ghost predicate Chained(log: seq<Entry>, hash: Hash) {
    forall i :: 0 <= i < |log| ==> LinkOk(log, i, hash)
  }

  ghost predicate LinkOk(log: seq<Entry>, i: nat, hash: Hash)
    requires i < |log|
  {
    && log[i].previous == (if i == 0 then None else Some(log[i - 1].hash))
    && log[i].hash == hash(Preimage(log[i].previous, log[i].canonical))
    && Canonical(log[i].canonical)
  }

  lemma {:induction false} ExtendKeeps(log: seq<Entry>, canonical: string, hash: Hash)
    requires Chained(log, hash) && Canonical(canonical)
    ensures Chained(Extended(log, HeadOf(log), canonical, hash), hash)
  {
    var r := Extended(log, HeadOf(log), canonical, hash);
    forall i | 0 <= i < |r|
      ensures LinkOk(r, i, hash)
    {
      if i < |log| {
        assert LinkOk(log, i, hash);
      }
    }
  }

  function HeadOf(log: seq<Entry>): Option<string> {
    if log == [] then None else Some(log[|log| - 1].hash)
  }

  class AuditRepository {
    var log: seq<Entry>
    /** The one row of `audit_chain_head`; without the row the append fails. */
    var head: Option<Option<string>>
    const hash: Hash

    ghost predicate Valid()
      reads this
    {
      Chained(log, hash) && (head.Some? ==> head.value == HeadOf(log))
    }

    constructor (hash: Hash)
      ensures Valid() && log == [] && head == Some(None) && this.hash == hash
    {
      log, head := [], Some(None);
      this.hash := hash;
    }

    /** `append`: lock the head, add the record, move the head. */
    method Append(canonical: string) returns (ok: bool)
      requires Valid() && Canonical(canonical)
      modifies this
      ensures Valid() && ok == old(head).Some?
      ensures ok ==> log == Extended(old(log), HeadOf(old(log)), canonical, hash) && head.Some?
      ensures !ok ==> log == old(log) && head == old(head)
    {
      if head.None? {
        return false;
      }
      var previous := head.value;
      var eventHash := hash(Preimage(previous, canonical));
      ExtendKeeps(log, canonical, hash);
      log := log + [Entry(canonical, previous, eventHash)];
      head := Some(Some(eventHash));
      return true;
    }
  }

  /** The log that appending these events one by one yields. */
  function LogOf(events: seq<string>, hash: Hash): seq<Entry> {
    if events == [] then []
    else
      var before := LogOf(events[..|events| - 1], hash);
      Extended(before, HeadOf(before), events[|events| - 1], hash)
  }

  lemma {:induction false} LogIsChained(events: seq<string>, hash: Hash)
    requires forall i :: 0 <= i < |events| ==> Canonical(events[i])
    ensures Chained(LogOf(events, hash), hash) && |LogOf(events, hash)| == |events|
    ensures forall i :: 0 <= i < |events| ==> LogOf(events, hash)[i].canonical == events[i]
  {
    if events != [] {
      LogIsChained(events[..|events| - 1], hash);
      ExtendKeeps(LogOf(events[..|events| - 1], hash), events[|events| - 1], hash);
    }
  }

  /** The inputs hashed along a log. */
  function Preimages(log: seq<Entry>): seq<string> {
    seq(|log|, i requires 0 <= i < |log| => Preimage(log[i].previous, log[i].canonical))
  }

  /** Two different inputs among those hashed in the two logs with one hash. */
  ghost predicate Collision(a: seq<Entry>, b: seq<Entry>, hash: Hash) {
    exists x, y :: x in Preimages(a) && y in Preimages(b) && x != y && hash(x) == hash(y)
  }

  /** A prefix that is empty or 64 hex digits can be told from canonical JSON. */
  lemma {:induction false} PreimageInjective(p: Option<string>, c: string, q: Option<string>, d: string)
    requires Canonical(c) && Canonical(d) && (p.Some? ==> HexDigest(p.value)) && (q.Some? ==> HexDigest(q.value))
    requires Preimage(p, c) == Preimage(q, d)
    ensures p == q && c == d
  {
    if p.Some? {
      assert Preimage(p, c)[0] == p.value[0] && HexDigit(p.value[0]);
      if q.Some? {
        assert p.value == Preimage(p, c)[..64] == Preimage(q, d)[..64] == q.value;
        assert c == Preimage(p, c)[64..] == Preimage(q, d)[64..] == d;
      }
    }
  }

  lemma {:induction false} PreviousIsDigest(log: seq<Entry>, hash: Hash, i: nat)
    requires HashShape(hash) && Chained(log, hash) && i < |log|
    ensures log[i].previous.Some? ==> HexDigest(log[i].previous.value)
  {
    assert LinkOk(log, i, hash);
    if i > 0 {
      assert LinkOk(log, i - 1, hash);
    }
  }

  lemma {:induction false} PrefixChained(log: seq<Entry>, hash: Hash)
    requires Chained(log, hash) && log != []
    ensures Chained(log[..|log| - 1], hash)
    ensures log[|log| - 1].previous == HeadOf(log[..|log| - 1])
  {
    assert LinkOk(log, |log| - 1, hash);
    var init := log[..|log| - 1];
    forall i | 0 <= i < |init|
      ensures LinkOk(init, i, hash)
    {
      assert LinkOk(log, i, hash);
    }
  }

  lemma {:induction false} CollisionGrows(a: seq<Entry>, b: seq<Entry>, hash: Hash)
    requires a != [] && b != [] && Collision(a[..|a| - 1], b[..|b| - 1], hash)
    ensures Collision(a, b, hash)
  {
    var a', b' := a[..|a| - 1], b[..|b| - 1];
    var x, y :| x in Preimages(a') && y in Preimages(b') && x != y && hash(x) == hash(y);
    var i :| 0 <= i < |a'| && Preimages(a')[i] == x;
    var j :| 0 <= j < |b'| && Preimages(b')[j] == y;
    assert Preimages(a)[i] == x && Preimages(b)[j] == y;
  }

  /** Equal heads mean equal logs, event for event, unless the hash collides on two inputs that
      were in fact hashed in them. */
  lemma {:induction false} HeadDeterminesLog(a: seq<Entry>, b: seq<Entry>, hash: Hash)
    requires HashShape(hash) && Chained(a, hash) && Chained(b, hash) && HeadOf(a) == HeadOf(b)
    ensures a == b || Collision(a, b, hash)
    decreases |a|
  {
    if a != [] && b != [] {
      assert LinkOk(a, |a| - 1, hash) && LinkOk(b, |b| - 1, hash);
      var x, y := a[|a| - 1], b[|b| - 1];
      var p, q := Preimage(x.previous, x.canonical), Preimage(y.previous, y.canonical);
      assert Preimages(a)[|a| - 1] == p && Preimages(b)[|b| - 1] == q;
      if p == q {
        PreviousIsDigest(a, hash, |a| - 1);
        PreviousIsDigest(b, hash, |b| - 1);
        PreimageInjective(x.previous, x.canonical, y.previous, y.canonical);
        PrefixChained(a, hash);
        PrefixChained(b, hash);
        HeadDeterminesLog(a[..|a| - 1], b[..|b| - 1], hash);
        if a[..|a| - 1] == b[..|b| - 1] {
          assert a == a[..|a| - 1] + [x] && b == b[..|b| - 1] + [y];
        } else {
          CollisionGrows(a, b, hash);
        }
      } else {
        assert p in Preimages(a) && q in Preimages(b) && hash(p) == hash(q);
      }
    }
  }
}
