/** The outbox: rows claimed under a lease, fenced by the claim id, and published, retried or given up. */
module Outbox {
  import opened Seqs
  import Sorting

  datatype PublishStatus = Pending | Publishing | Published | Dead

  /** A row of `outbox_message`; its id is its position in the table, in id order. */
  datatype Row = Row(
    destination: string, status: PublishStatus, availableAt: int, attempts: nat,
    claimedBy: Option<string>, claimedAt: Option<int>, publishedAt: Option<int>, lastError: Option<string>,
    rowVersion: nat)

  /** What a worker keeps of a claimed row. */
  datatype Message = Message(id: nat, attempts: nat)

  function NewRow(destination: string, availableAt: int): Row {
    Row(destination, Pending, availableAt, 0, None, None, None, None, 1)
  }

  /** `publish_state_shape`. */
  predicate Shape(r: Row) {
    match r.status
    case Publishing => r.claimedBy.Some? && r.claimedAt.Some? && r.publishedAt.None?
    case Published => r.publishedAt.Some?
    case _ => r.claimedBy.None? && r.claimedAt.None? && r.publishedAt.None?
  }

  // Claiming.

  predicate Claimable(r: Row, destination: string, now: int, lease: int) {
    && r.destination == destination
    && ((r.status == Pending && r.availableAt <= now)
        || (r.status == Publishing && r.claimedAt.Some? && r.claimedAt.value < now - lease))
  }

  /** The claimable rows that no other transaction has locked, in id order. */
  function Candidates(rows: seq<Row>, destination: string, now: int, lease: int, locked: set<nat>,
                      n: nat): (r: seq<nat>)
    requires n <= |rows|
    ensures forall k :: 0 <= k < |r| ==> r[k] < n && r[k] !in locked && Claimable(rows[r[k]], destination, now, lease)
    ensures forall i :: 0 <= i < n && i !in locked && Claimable(rows[i], destination, now, lease) ==> i in r
    ensures Distinct(r)
  {
    if n == 0 then []
    else
      Candidates(rows, destination, now, lease, locked, n - 1)
      + (if n - 1 !in locked && Claimable(rows[n - 1], destination, now, lease) then [n - 1] else [])
  }

  function AvailableAt(rows: seq<Row>, i: nat): int {
    if i < |rows| then rows[i].availableAt else 0
  }

  predicate ClaimBefore(rows: seq<Row>, i: nat, j: nat) {
    AvailableAt(rows, i) < AvailableAt(rows, j) || (AvailableAt(rows, i) == AvailableAt(rows, j) && i <= j)
  }

  /** The ids a batch takes: `ORDER BY available_at, id ... SKIP LOCKED LIMIT limit`. */
  function Batch(rows: seq<Row>, destination: string, now: int, lease: int, locked: set<nat>, limit: nat): seq<nat> {
    var sorted := Sorting.Sort(Candidates(rows, destination, now, lease, locked, |rows|),
                               (i: nat, j: nat) => ClaimBefore(rows, i, j));
    if |sorted| <= limit then sorted else sorted[..limit]
  }

  predicate Free(rows: seq<Row>, destination: string, now: int, lease: int, locked: set<nat>, i: nat) {
    i < |rows| && i !in locked && Claimable(rows[i], destination, now, lease)
  }

  lemma {:induction false} CandidatesAreFree(rows: seq<Row>, destination: string, now: int, lease: int,
                                             locked: set<nat>)
    ensures var cs := Candidates(rows, destination, now, lease, locked, |rows|);
            Distinct(cs) && forall i :: i in cs <==> Free(rows, destination, now, lease, locked, i)
  {
    hide Claimable;
    var cs := Candidates(rows, destination, now, lease, locked, |rows|);
    assert forall i :: i in cs ==> exists k :: 0 <= k < |cs| && cs[k] == i;
  }

  lemma {:induction false} ClaimsAreOrdered(rows: seq<Row>)
    ensures Sorting.Preorder((i: nat, j: nat) => ClaimBefore(rows, i, j))
  {
    hide AvailableAt;
  }

  lemma {:induction false} SortedCandidates(rows: seq<Row>, destination: string, now: int, lease: int, locked: set<nat>)
    ensures var le := (i: nat, j: nat) => ClaimBefore(rows, i, j);
            var s := Sorting.Sort(Candidates(rows, destination, now, lease, locked, |rows|), le);
            && Distinct(s) && Sorting.Sorted(s, le)
            && (forall k :: 0 <= k < |s| ==> Free(rows, destination, now, lease, locked, s[k]))
            && (forall i :: Free(rows, destination, now, lease, locked, i) ==> i in s)
  {
    var le := (i: nat, j: nat) => ClaimBefore(rows, i, j);
    var cs := Candidates(rows, destination, now, lease, locked, |rows|);
    var s := Sorting.Sort(cs, le);
    CandidatesAreFree(rows, destination, now, lease, locked);
    ClaimsAreOrdered(rows);
    hide *;
    Sorting.SortContents(cs, le);
    Sorting.SortSorted(cs, le);
    DistinctRearranged(cs, s);
    forall i: nat
      ensures i in s <==> i in cs
    {
      Sorting.SortMember(cs, le, i);
    }
  }

  lemma {:induction false} CutAfter(rows: seq<Row>, s: seq<nat>, limit: nat, i: nat)
    requires Sorting.Sorted(s, (i: nat, j: nat) => ClaimBefore(rows, i, j)) && i in s
    ensures var b := if |s| <= limit then s else s[..limit];
            i !in b ==> |b| == limit && forall k :: 0 <= k < |b| ==> ClaimBefore(rows, b[k], i)
  {
    hide ClaimBefore;
    var le := (i: nat, j: nat) => ClaimBefore(rows, i, j);
    var m :| 0 <= m < |s| && s[m] == i;
    assert m < limit < |s| ==> s[..limit][m] == i;
    assert forall k :: 0 <= k < m ==> le(s[k], s[m]);
  }

  /** A batch holds free rows, no more than the limit, each once; a free row left out comes no earlier
      than any taken, and is left out only when the limit is reached. */
  lemma {:induction false} BatchMeaning(rows: seq<Row>, destination: string, now: int, lease: int, locked: set<nat>,
                                        limit: nat)
    ensures var b := Batch(rows, destination, now, lease, locked, limit);
            && |b| <= limit && Distinct(b)
            && (forall k :: 0 <= k < |b| ==> Free(rows, destination, now, lease, locked, b[k]))
            && (forall i :: Free(rows, destination, now, lease, locked, i) && i !in b ==>
                  |b| == limit && forall k :: 0 <= k < |b| ==> ClaimBefore(rows, b[k], i))
  {
    var le := (i: nat, j: nat) => ClaimBefore(rows, i, j);
    SortedCandidates(rows, destination, now, lease, locked);
    hide Candidates, Free, ClaimBefore;
    var s := Sorting.Sort(Candidates(rows, destination, now, lease, locked, |rows|), le);
    var b := Batch(rows, destination, now, lease, locked, limit);
    forall i | Free(rows, destination, now, lease, locked, i) && i !in b
      ensures |b| == limit && forall k :: 0 <= k < |b| ==> ClaimBefore(rows, b[k], i)
    {
      CutAfter(rows, s, limit, i);
    }
  }

  function ClaimRow(r: Row, claimId: string, now: int): Row {
    r.(status := Publishing, claimedBy := Some(claimId), claimedAt := Some(now), attempts := r.attempts + 1,
       rowVersion := r.rowVersion + 1, publishedAt := None, lastError := None)
  }

  function ClaimRows(rows: seq<Row>, ids: seq<nat>, claimId: string, now: int): (r: seq<Row>)
    requires forall k :: 0 <= k < |ids| ==> ids[k] < |rows|
    ensures |r| == |rows|
    ensures forall i :: 0 <= i < |rows| ==> r[i] == if i in ids then ClaimRow(rows[i], claimId, now) else rows[i]
  {
    seq(|rows|, i requires 0 <= i < |rows| => if i in ids then ClaimRow(rows[i], claimId, now) else rows[i])
  }

  function Messages(rows: seq<Row>, ids: seq<nat>): (r: seq<Message>)
    requires forall k :: 0 <= k < |ids| ==> ids[k] < |rows|
    ensures |r| == |ids| && forall k :: 0 <= k < |ids| ==> r[k] == Message(ids[k], rows[ids[k]].attempts + 1)
  {
    seq(|ids|, k requires 0 <= k < |ids| => Message(ids[k], rows[ids[k]].attempts + 1))
  }

  // Settling.

  predicate Holds(r: Row, claimId: string) {
    r.status == Publishing && r.claimedBy == Some(claimId)
  }

  function PublishRow(r: Row, claimId: string, now: int): Row {
    if Holds(r, claimId)
    then r.(status := Published, publishedAt := Some(now), claimedBy := None, claimedAt := None,
            rowVersion := r.rowVersion + 1)
    else r
  }

  function Pow2(n: nat): nat {
    if n == 0 then 1 else 2 * Pow2(n - 1)
  }

  /** `min(2 ** max(attempts - 1, 0), 60)` seconds. */
  function Backoff(attempts: nat): (r: nat)
    ensures 1 <= r <= 60
  {
    PowPositive(Max(attempts - 1, 0));
    Min(Pow2(Max(attempts - 1, 0)), 60)
  }

  lemma {:induction false} PowPositive(n: nat)
    ensures Pow2(n) >= 1
  {
    if n > 0 {
      PowPositive(n - 1);
    }
  }

  function FailRow(r: Row, claimId: string, messageAttempts: nat, status: PublishStatus, error: string, now: int): Row {
    if Holds(r, claimId)
    then r.(status := status, claimedBy := None, claimedAt := None, publishedAt := None,
            lastError := Some(if |error| <= 64 then error else error[..64]),
            availableAt := now + Backoff(messageAttempts), rowVersion := r.rowVersion + 1)
    else r
  }

  function RetryStatus(m: Message, maxAttempts: nat): PublishStatus {
    if m.attempts >= maxAttempts then Dead else Pending
  }

  function SetRow(rows: seq<Row>, i: nat, r: Row): (s: seq<Row>)
    ensures |s| == |rows|
  {
    if i < |rows| then rows[i := r] else rows
  }

  class OutboxRepository {
    var rows: seq<Row>

    constructor (rows: seq<Row>)
      ensures this.rows == rows
    {
      this.rows := rows;
    }

    /** `claim_batch`, while other transactions hold the rows in `locked`. */
    method ClaimBatch(destination: string, limit: nat, lease: int, claimId: string, now: int, locked: set<nat>)
      returns (claimed: seq<Message>)
      modifies this
      ensures var ids := Batch(old(rows), destination, now, lease, locked, limit);
              && (forall k :: 0 <= k < |ids| ==> ids[k] < |old(rows)|)
              && rows == ClaimRows(old(rows), ids, claimId, now) && claimed == Messages(old(rows), ids)
    {
      var ids := Batch(rows, destination, now, lease, locked, limit);
      BatchMeaning(rows, destination, now, lease, locked, limit);
      hide Batch;
      ghost var before := rows;
      claimed := [];
      for k := 0 to |ids|
        invariant |rows| == |before| && |claimed| == k
        invariant forall i :: 0 <= i < |rows| ==>
                  rows[i] == if i in ids[..k] then ClaimRow(before[i], claimId, now) else before[i]
        invariant forall j :: 0 <= j < k ==> claimed[j] == Message(ids[j], before[ids[j]].attempts + 1)
      {
        assert ids[k] !in ids[..k];
        rows := rows[ids[k] := ClaimRow(rows[ids[k]], claimId, now)];
        claimed := claimed + [Message(ids[k], rows[ids[k]].attempts)];
        assert ids[..k + 1] == ids[..k] + [ids[k]];
      }
      assert ids[..|ids|] == ids;
    }

    method MarkPublished(m: Message, claimId: string, now: int)
      modifies this
      ensures rows == if m.id < |old(rows)| then SetRow(old(rows), m.id, PublishRow(old(rows)[m.id], claimId, now))
              else old(rows)
    {
      if m.id < |rows| && rows[m.id].status == Publishing && rows[m.id].claimedBy == Some(claimId) {
        var r := rows[m.id];
        rows := rows[m.id := r.(status := Published, publishedAt := Some(now), claimedBy := None, claimedAt := None,
                                rowVersion := r.rowVersion + 1)];
      }
    }

    method MarkRetry(m: Message, claimId: string, error: string, maxAttempts: nat, now: int)
      returns (status: PublishStatus)
      modifies this
      ensures status == RetryStatus(m, maxAttempts)
      ensures rows == if m.id < |old(rows)|
                      then SetRow(old(rows), m.id, FailRow(old(rows)[m.id], claimId, m.attempts, status, error, now))
                      else old(rows)
    {
      status := if m.attempts >= maxAttempts then Dead else Pending;
      MarkFailed(m, claimId, error, status, now);
    }

    method MarkDead(m: Message, claimId: string, error: string, now: int)
      modifies this
      ensures rows == if m.id < |old(rows)|
                      then SetRow(old(rows), m.id, FailRow(old(rows)[m.id], claimId, m.attempts, Dead, error, now))
                      else old(rows)
    {
      MarkFailed(m, claimId, error, Dead, now);
    }

    /** `_mark_failed`: an update guarded by the claim id. */
    method MarkFailed(m: Message, claimId: string, error: string, status: PublishStatus, now: int)
      modifies this
      ensures rows == if m.id < |old(rows)|
                      then SetRow(old(rows), m.id, FailRow(old(rows)[m.id], claimId, m.attempts, status, error, now))
                      else old(rows)
    {
      if m.id < |rows| && rows[m.id].status == Publishing && rows[m.id].claimedBy == Some(claimId) {
        var r := rows[m.id];
        rows := rows[m.id := r.(status := status, claimedBy := None, claimedAt := None, publishedAt := None,
                                lastError := Some(if |error| <= 64 then error else error[..64]),
                                availableAt := now + Backoff(m.attempts), rowVersion := r.rowVersion + 1)];
      }
    }
  }

  // Runs: any number of workers, crashes and late settlements.

  datatype Op =
    | Add(destination: string, availableAt: int)
    | Claim(destination: string, limit: nat, lease: int, claimId: string, now: int, locked: set<nat>)
    | Publish(message: Message, claimId: string, now: int)
    | Retry(message: Message, claimId: string, error: string, now: int)
    | GiveUp(message: Message, claimId: string, error: string, now: int)

  datatype Ticket = Ticket(message: Message, claimId: string)

  /** The table and every message ever handed to a worker. */
  datatype World = World(rows: seq<Row>, issued: seq<Ticket>)

  const EMPTY := World([], [])

  function Tickets(ms: seq<Message>, claimId: string): (r: seq<Ticket>)
    ensures |r| == |ms| && forall k :: 0 <= k < |ms| ==> r[k] == Ticket(ms[k], claimId)
  {
    seq(|ms|, k requires 0 <= k < |ms| => Ticket(ms[k], claimId))
  }

  /** Claim ids are fresh; a worker settles only what it was handed, whenever it likes or never. */
  ghost predicate Legal(w: World, op: Op) {
    match op
    case Add(_, _) => true
    case Claim(_, _, _, c, _, _) => forall k :: 0 <= k < |w.issued| ==> w.issued[k].claimId != c
    case Publish(m, c, _) => Ticket(m, c) in w.issued
    case Retry(m, c, _, _) => Ticket(m, c) in w.issued
    case GiveUp(m, c, _, _) => Ticket(m, c) in w.issued
  }

  function Apply(w: World, op: Op, maxAttempts: nat): World {
    match op
    case Add(d, t) => w.(rows := w.rows + [NewRow(d, t)])
    case Claim(d, limit, lease, c, now, locked) =>
      BatchMeaning(w.rows, d, now, lease, locked, limit);
      var ids := Batch(w.rows, d, now, lease, locked, limit);
      World(ClaimRows(w.rows, ids, c, now), w.issued + Tickets(Messages(w.rows, ids), c))
    case Publish(m, c, now) =>
      if m.id < |w.rows| then w.(rows := SetRow(w.rows, m.id, PublishRow(w.rows[m.id], c, now))) else w
    case Retry(m, c, e, now) =>
      if m.id < |w.rows|
      then w.(rows := SetRow(w.rows, m.id, FailRow(w.rows[m.id], c, m.attempts, RetryStatus(m, maxAttempts), e, now)))
      else w
    case GiveUp(m, c, e, now) =>
      if m.id < |w.rows| then w.(rows := SetRow(w.rows, m.id, FailRow(w.rows[m.id], c, m.attempts, Dead, e, now)))
      else w
  }

  function Run(w: World, ops: seq<Op>, maxAttempts: nat): World {
    if ops == [] then w else Apply(Run(w, ops[..|ops| - 1], maxAttempts), ops[|ops| - 1], maxAttempts)
  }

  ghost predicate LegalRun(w: World, ops: seq<Op>, maxAttempts: nat) {
    forall k :: 0 <= k < |ops| ==> Legal(Run(w, ops[..k], maxAttempts), ops[k])
  }

  /** How many claims row `i` has seen. */
  function Claims(issued: seq<Ticket>, i: nat): nat {
    if issued == [] then 0
    else Claims(issued[..|issued| - 1], i) + (if issued[|issued| - 1].message.id == i then 1 else 0)
  }

  lemma {:induction false} ClaimsConcat(a: seq<Ticket>, b: seq<Ticket>, i: nat)
    ensures Claims(a + b, i) == Claims(a, i) + Claims(b, i)
  {
    if b == [] {
      assert a + b == a;
    } else {
      assert (a + b)[..|a + b| - 1] == a + b[..|b| - 1];
      ClaimsConcat(a, b[..|b| - 1], i);
    }
  }

  lemma {:induction false} ClaimsOfBatch(rows: seq<Row>, ids: seq<nat>, c: string, i: nat)
    requires (forall k :: 0 <= k < |ids| ==> ids[k] < |rows|) && Distinct(ids)
    ensures Claims(Tickets(Messages(rows, ids), c), i) == if i in ids then 1 else 0
  {
    if ids != [] {
      var init := ids[..|ids| - 1];
      assert ids == init + [ids[|ids| - 1]];
      ClaimsOfBatch(rows, init, c, i);
      assert Tickets(Messages(rows, ids), c)[..|init|] == Tickets(Messages(rows, init), c);
    }
  }

  lemma {:induction false} NoClaims(issued: seq<Ticket>, i: nat)
    requires forall k :: 0 <= k < |issued| ==> issued[k].message.id != i
    ensures Claims(issued, i) == 0
  {
    if issued != [] {
      NoClaims(issued[..|issued| - 1], i);
    }
  }

  /** The state of row `i`: its shape, its claims counted, its holder's message current, and never
      waiting with its attempts used up. */
  ghost predicate RowOk(w: World, i: nat, maxAttempts: nat)
    requires i < |w.rows|
  {
    var r := w.rows[i];
    && Shape(r) && r.attempts == Claims(w.issued, i)
    && (r.status == Publishing ==> Ticket(Message(i, r.attempts), r.claimedBy.value) in w.issued)
    && (r.status == Pending ==> r.attempts < maxAttempts)
  }

  /** A claim id is handed out at most once per row. */
  ghost predicate OncePerRow(issued: seq<Ticket>) {
    forall j, k :: 0 <= j < k < |issued| && issued[j].claimId == issued[k].claimId
      ==> issued[j].message.id != issued[k].message.id
  }

  ghost predicate TicketsOk(w: World) {
    && (forall k :: 0 <= k < |w.issued| ==> w.issued[k].message.id < |w.rows|)
    && OncePerRow(w.issued)
  }

  ghost predicate Inv(w: World, maxAttempts: nat) {
    TicketsOk(w) && forall i :: 0 <= i < |w.rows| ==> RowOk(w, i, maxAttempts)
  }

  lemma {:induction false} AddKeeps(w: World, op: Op, maxAttempts: nat)
    requires Inv(w, maxAttempts) && op.Add? && maxAttempts >= 1
    ensures Inv(Apply(w, op, maxAttempts), maxAttempts)
  {
    var v := Apply(w, op, maxAttempts);
    NoClaims(w.issued, |w.rows|);
    forall i | 0 <= i < |v.rows|
      ensures RowOk(v, i, maxAttempts)
    {
      if i < |w.rows| {
        assert RowOk(w, i, maxAttempts) && v.rows[i] == w.rows[i];
      }
    }
  }

  /** A batch of distinct rows under a fresh claim id. */
  lemma {:induction false} FreshTickets(issued: seq<Ticket>, added: seq<Ticket>, c: string)
    requires OncePerRow(issued) && OncePerRow(added)
    requires forall k :: 0 <= k < |issued| ==> issued[k].claimId != c
    requires forall k :: 0 <= k < |added| ==> added[k].claimId == c
    ensures OncePerRow(issued + added)
  {
    var all := issued + added;
    forall j, k | 0 <= j < k < |all| && all[j].claimId == all[k].claimId
      ensures all[j].message.id != all[k].message.id
    {
      assert if j < |issued| then all[j] == issued[j] else all[j] == added[j - |issued|];
      assert if k < |issued| then all[k] == issued[k] else all[k] == added[k - |issued|];
    }
  }

  lemma {:induction false} ClaimTickets(w: World, op: Op, maxAttempts: nat)
    requires TicketsOk(w) && op.Claim? && Legal(w, op)
    ensures TicketsOk(Apply(w, op, maxAttempts))
  {
    hide Batch;
    var v := Apply(w, op, maxAttempts);
    BatchMeaning(w.rows, op.destination, op.now, op.lease, op.locked, op.limit);
    var ids := Batch(w.rows, op.destination, op.now, op.lease, op.locked, op.limit);
    FreshTickets(w.issued, Tickets(Messages(w.rows, ids), op.claimId), op.claimId);
  }

  lemma {:induction false} ClaimedRow(w: World, op: Op, maxAttempts: nat, i: nat)
    requires op.Claim? && i < |w.rows| && RowOk(w, i, maxAttempts)
    ensures RowOk(Apply(w, op, maxAttempts), i, maxAttempts)
  {
    hide Batch;
    BatchMeaning(w.rows, op.destination, op.now, op.lease, op.locked, op.limit);
    BatchRow(w, Apply(w, op, maxAttempts), Batch(w.rows, op.destination, op.now, op.lease, op.locked, op.limit),
             op.claimId, op.now, maxAttempts, i);
  }

  lemma {:induction false} TicketIssued(rows: seq<Row>, ids: seq<nat>, c: string, i: nat)
    requires (forall k :: 0 <= k < |ids| ==> ids[k] < |rows|) && i in ids && i < |rows|
    ensures Ticket(Message(i, rows[i].attempts + 1), c) in Tickets(Messages(rows, ids), c)
  {
    var k :| 0 <= k < |ids| && ids[k] == i;
    assert Tickets(Messages(rows, ids), c)[k] == Ticket(Message(i, rows[i].attempts + 1), c);
  }

  lemma {:induction false} BatchRow(w: World, v: World, ids: seq<nat>, c: string, now: int, maxAttempts: nat, i: nat)
    requires (forall k :: 0 <= k < |ids| ==> ids[k] < |w.rows|) && Distinct(ids)
    requires v.rows == ClaimRows(w.rows, ids, c, now) && v.issued == w.issued + Tickets(Messages(w.rows, ids), c)
    requires i < |w.rows| && RowOk(w, i, maxAttempts)
    ensures RowOk(v, i, maxAttempts)
  {
    hide Claims;
    var added := Tickets(Messages(w.rows, ids), c);
    ClaimsConcat(w.issued, added, i);
    ClaimsOfBatch(w.rows, ids, c, i);
    if i in ids {
      TicketIssued(w.rows, ids, c, i);
      hide Tickets, Messages;
    } else {
      hide Tickets, Messages;
    }
  }

  /** A settlement by the holder carries the row's own attempt count. */
  lemma {:induction false} HolderIsCurrent(w: World, m: Message, c: string, maxAttempts: nat)
    requires Inv(w, maxAttempts) && Ticket(m, c) in w.issued && Holds(w.rows[m.id], c)
    ensures m.id < |w.rows| && m.attempts == w.rows[m.id].attempts
  {
    var k :| 0 <= k < |w.issued| && w.issued[k] == Ticket(m, c);
    assert RowOk(w, m.id, maxAttempts);
    var j :| 0 <= j < |w.issued| && w.issued[j] == Ticket(Message(m.id, w.rows[m.id].attempts), c);
    assert w.issued[Min(j, k)].claimId == w.issued[Max(j, k)].claimId;
  }

  lemma {:induction false} SettleKeeps(w: World, op: Op, maxAttempts: nat)
    requires Inv(w, maxAttempts) && (op.Publish? || op.Retry? || op.GiveUp?) && Legal(w, op)
    ensures Inv(Apply(w, op, maxAttempts), maxAttempts)
  {
    var v := Apply(w, op, maxAttempts);
    var m, c := op.message, op.claimId;
    forall i | 0 <= i < |v.rows|
      ensures RowOk(v, i, maxAttempts)
    {
      assert RowOk(w, i, maxAttempts);
      if i == m.id && Holds(w.rows[i], c) {
        HolderIsCurrent(w, m, c, maxAttempts);
      }
    }
  }

  /** Every reachable table, whatever the workers do: publish-state shape, attempts equal to claims,
      and no row waiting with its attempts used up. */
  lemma {:induction false} RunKeepsInv(ops: seq<Op>, maxAttempts: nat)
    requires maxAttempts >= 1 && LegalRun(EMPTY, ops, maxAttempts)
    ensures Inv(Run(EMPTY, ops, maxAttempts), maxAttempts)
  {
    if ops != [] {
      hide Apply, Inv, Legal, LegalRun;
      LegalPrefix(EMPTY, ops, maxAttempts);
      RunKeepsInv(ops[..|ops| - 1], maxAttempts);
      StepKeepsInv(Run(EMPTY, ops[..|ops| - 1], maxAttempts), ops[|ops| - 1], maxAttempts);
    } else {
      assert Run(EMPTY, ops, maxAttempts) == EMPTY;
    }
  }

  lemma {:induction false} StepKeepsInv(w: World, op: Op, maxAttempts: nat)
    requires Inv(w, maxAttempts) && Legal(w, op) && maxAttempts >= 1
    ensures Inv(Apply(w, op, maxAttempts), maxAttempts)
  {
    match op {
      case Add(_, _) => AddKeeps(w, op, maxAttempts);
      case Claim(_, _, _, _, _, _) =>
        ClaimTickets(w, op, maxAttempts);
        var v := Apply(w, op, maxAttempts);
        forall i | 0 <= i < |v.rows|
          ensures RowOk(v, i, maxAttempts)
        {
          ClaimedRow(w, op, maxAttempts, i);
        }
      case _ => SettleKeeps(w, op, maxAttempts);
    }
  }

  lemma {:induction false} SettledStep(w: World, op: Op, maxAttempts: nat, i: nat)
    requires i < |w.rows| && w.rows[i].status in {Published, Dead}
    ensures var v := Apply(w, op, maxAttempts);
            i < |v.rows| && v.rows[i] == w.rows[i]
  {
    hide Batch;
    if op.Claim? {
      BatchMeaning(w.rows, op.destination, op.now, op.lease, op.locked, op.limit);
    }
  }

  /** PUBLISHED and DEAD are absorbing: no later operation touches such a row. */
  lemma {:induction false} SettledForever(w: World, ops: seq<Op>, maxAttempts: nat, i: nat)
    requires i < |w.rows| && w.rows[i].status in {Published, Dead}
    ensures var v := Run(w, ops, maxAttempts);
            i < |v.rows| && v.rows[i] == w.rows[i]
  {
    if ops != [] {
      hide Apply;
      SettledForever(w, ops[..|ops| - 1], maxAttempts, i);
      SettledStep(Run(w, ops[..|ops| - 1], maxAttempts), ops[|ops| - 1], maxAttempts, i);
    }
  }

  /** The row no longer belongs to claim `c`, whose id has been used. */
  ghost predicate Lost(w: World, i: nat, c: string) {
    && i < |w.rows| && !Holds(w.rows[i], c)
    && exists k :: 0 <= k < |w.issued| && w.issued[k].claimId == c
  }

  lemma {:induction false} LostStep(w: World, op: Op, maxAttempts: nat, i: nat, c: string)
    requires Lost(w, i, c) && Legal(w, op)
    ensures Lost(Apply(w, op, maxAttempts), i, c)
  {
    hide Batch;
    var v := Apply(w, op, maxAttempts);
    var k :| 0 <= k < |w.issued| && w.issued[k].claimId == c;
    if op.Claim? {
      BatchMeaning(w.rows, op.destination, op.now, op.lease, op.locked, op.limit);
      assert op.claimId != c;
    }
    assert v.issued[k] == w.issued[k];
  }

  lemma {:induction false} LegalPrefix(w: World, ops: seq<Op>, maxAttempts: nat)
    requires ops != [] && LegalRun(w, ops, maxAttempts)
    ensures LegalRun(w, ops[..|ops| - 1], maxAttempts)
    ensures Legal(Run(w, ops[..|ops| - 1], maxAttempts), ops[|ops| - 1])
  {
    hide Run, Legal;
    var before := ops[..|ops| - 1];
    forall k | 0 <= k < |before|
      ensures Legal(Run(w, before[..k], maxAttempts), before[k])
    {
      assert before[..k] == ops[..k] && before[k] == ops[k];
    }
  }

  lemma {:induction false} LostForever(w: World, ops: seq<Op>, maxAttempts: nat, i: nat, c: string)
    requires Lost(w, i, c) && LegalRun(w, ops, maxAttempts)
    ensures Lost(Run(w, ops, maxAttempts), i, c)
  {
    if ops != [] {
      hide Apply, Lost, Legal, LegalRun;
      LegalPrefix(w, ops, maxAttempts);
      LostForever(w, ops[..|ops| - 1], maxAttempts, i, c);
      LostStep(Run(w, ops[..|ops| - 1], maxAttempts), ops[|ops| - 1], maxAttempts, i, c);
    }
  }

  /** Fencing: once its lease was taken over or settled, nothing that a worker does with that claim,
      at any later time, changes the row. */
  lemma {:induction false} FencedOut(w: World, ops: seq<Op>, maxAttempts: nat, m: Message, c: string, op: Op)
    requires Lost(w, m.id, c) && LegalRun(w, ops, maxAttempts)
    requires (op.Publish? || op.Retry? || op.GiveUp?) && op.message == m && op.claimId == c
    ensures var v := Run(w, ops, maxAttempts);
            Apply(v, op, maxAttempts) == v
  {
    LostForever(w, ops, maxAttempts, m.id, c);
  }

  /** Taking over an expired lease makes the former holder lose the row. */
  lemma {:induction false} TakeoverLoses(w: World, op: Op, maxAttempts: nat, i: nat, c: string)
    requires Inv(w, maxAttempts) && op.Claim? && Legal(w, op) && i < |w.rows| && Holds(w.rows[i], c)
    ensures var v := Apply(w, op, maxAttempts);
            && (v.rows[i] == w.rows[i] || Lost(v, i, c))
            && (Lost(v, i, c) <==> i in Batch(w.rows, op.destination, op.now, op.lease, op.locked, op.limit))
  {
    hide Batch;
    BatchMeaning(w.rows, op.destination, op.now, op.lease, op.locked, op.limit);
    assert RowOk(w, i, maxAttempts);
    var v := Apply(w, op, maxAttempts);
    var k :| 0 <= k < |w.issued| && w.issued[k].claimId == c;
    assert v.issued[k] == w.issued[k] && op.claimId != c;
  }
}
