/** What claiming and settling do to one row of the outbox, read off the rows. */
module OutboxEffects {
  import opened Seqs
  import Sorting
  import opened Outbox

  /** Waiting and due, or claimed under a lease that has run out. */
  predicate Ripe(r: Row, destination: string, now: int, lease: int) {
    && r.destination == destination
    && match r.status
       case Pending => r.availableAt <= now
       case Publishing => r.claimedAt.Some? && r.claimedAt.value + lease < now
       case _ => false
  }

  /** Row `i` is due before row `j`. */
  predicate DueBefore(rows: seq<Row>, i: nat, j: nat) {
    && i < |rows| && j < |rows|
    && (rows[i].availableAt < rows[j].availableAt || (rows[i].availableAt == rows[j].availableAt && i < j))
  }

  lemma {:induction false} FreeMeaning(rows: seq<Row>, destination: string, now: int, lease: int, locked: set<nat>,
                                       i: nat)
    ensures Free(rows, destination, now, lease, locked, i) <==>
            i < |rows| && i !in locked && Ripe(rows[i], destination, now, lease)
  {
  }

  lemma {:induction false} DueMeaning(rows: seq<Row>, i: nat, j: nat)
    requires i < |rows| && j < |rows| && i != j
    ensures ClaimBefore(rows, i, j) <==> DueBefore(rows, i, j)
  {
  }

  lemma {:induction false} BatchSorted(rows: seq<Row>, destination: string, now: int, lease: int, locked: set<nat>,
                                       limit: nat)
    ensures Sorting.Sorted(Batch(rows, destination, now, lease, locked, limit),
                           (i: nat, j: nat) => ClaimBefore(rows, i, j))
  {
    hide ClaimBefore, Candidates;
    ClaimsAreOrdered(rows);
    var le := (i: nat, j: nat) => ClaimBefore(rows, i, j);
    Sorting.SortSorted(Candidates(rows, destination, now, lease, locked, |rows|), le);
  }

  /** A batch: the ripe rows that nobody has locked, in the order in which they fell due, up to the limit. */
  lemma {:induction false} BatchExactly(rows: seq<Row>, destination: string, now: int, lease: int, locked: set<nat>,
                                        limit: nat)
    ensures var b := Batch(rows, destination, now, lease, locked, limit);
            && |b| <= limit
            && (forall k :: 0 <= k < |b| ==>
                  b[k] < |rows| && b[k] !in locked && Ripe(rows[b[k]], destination, now, lease))
            && (forall j, k :: 0 <= j < k < |b| ==> DueBefore(rows, b[j], b[k]))
            && (forall i: nat :: i < |rows| && i !in locked && i !in b && Ripe(rows[i], destination, now, lease) ==>
                  |b| == limit && forall k :: 0 <= k < |b| ==> DueBefore(rows, b[k], i))
  {
    BatchMeaning(rows, destination, now, lease, locked, limit);
    BatchSorted(rows, destination, now, lease, locked, limit);
    hide Batch, Free, ClaimBefore, DueBefore, Ripe;
    var b := Batch(rows, destination, now, lease, locked, limit);
    forall i: nat
      ensures Free(rows, destination, now, lease, locked, i) <==>
              i < |rows| && i !in locked && Ripe(rows[i], destination, now, lease)
    {
      FreeMeaning(rows, destination, now, lease, locked, i);
    }
    forall j, k | 0 <= j < k < |b|
      ensures DueBefore(rows, b[j], b[k])
    {
      DueMeaning(rows, b[j], b[k]);
    }
    forall i: nat | i < |rows| && i !in locked && i !in b && Ripe(rows[i], destination, now, lease)
      ensures |b| == limit && forall k :: 0 <= k < |b| ==> DueBefore(rows, b[k], i)
    {
      forall k | 0 <= k < |b|
        ensures DueBefore(rows, b[k], i)
      {
        DueMeaning(rows, b[k], i);
      }
    }
  }

  /** A claim takes the rows of its batch over, each with one more attempt and its error cleared; no other row
      changes. */
  lemma {:induction false} ClaimTakes(w: World, op: Op, maxAttempts: nat, i: nat)
    requires op.Claim? && i < |w.rows|
    ensures var v, r := Apply(w, op, maxAttempts), w.rows[i];
            && |v.rows| == |w.rows|
            && v.rows[i] == (if i in Batch(w.rows, op.destination, op.now, op.lease, op.locked, op.limit)
                             then Row(r.destination, Publishing, r.availableAt, r.attempts + 1, Some(op.claimId),
                                      Some(op.now), None, None, r.rowVersion + 1)
                             else r)
  {
    BatchMeaning(w.rows, op.destination, op.now, op.lease, op.locked, op.limit);
    hide Batch, Tickets, Messages, Free, ClaimBefore;
  }

  /** It hands out their messages, in the order of the batch. */
  lemma {:induction false} ClaimIssues(w: World, op: Op, maxAttempts: nat) returns (more: seq<Ticket>)
    requires op.Claim?
    ensures var b := Batch(w.rows, op.destination, op.now, op.lease, op.locked, op.limit);
            && Apply(w, op, maxAttempts).issued == w.issued + more && |more| == |b|
            && forall k :: 0 <= k < |b| ==>
                 b[k] < |w.rows| && more[k] == Ticket(Message(b[k], w.rows[b[k]].attempts + 1), op.claimId)
  {
    BatchMeaning(w.rows, op.destination, op.now, op.lease, op.locked, op.limit);
    hide Batch, ClaimRows, Free, ClaimBefore;
    var b := Batch(w.rows, op.destination, op.now, op.lease, op.locked, op.limit);
    more := Tickets(Messages(w.rows, b), op.claimId);
  }

  /** Under a live lease, before its time, settled, locked, or for another destination, a row is left alone. */
  lemma {:induction false} LeaseProtects(w: World, op: Op, maxAttempts: nat, i: nat)
    requires op.Claim? && i < |w.rows|
    ensures var r := w.rows[i];
            && (r.status == Publishing && r.claimedAt.Some? && op.now <= r.claimedAt.value + op.lease ==>
                  Apply(w, op, maxAttempts).rows[i] == r)
            && (r.status == Pending && op.now < r.availableAt ==> Apply(w, op, maxAttempts).rows[i] == r)
            && (r.status == Published || r.status == Dead || i in op.locked || r.destination != op.destination ==>
                  Apply(w, op, maxAttempts).rows[i] == r)
  {
    BatchExactly(w.rows, op.destination, op.now, op.lease, op.locked, op.limit);
    hide Batch, Tickets, Messages, DueBefore;
  }

  /** The holder settles its row: published for good, back for later with the delay of its attempt, or given up
      when the attempts are used up. */
  lemma {:induction false} HolderSettles(w: World, op: Op, maxAttempts: nat)
    requires op.Publish? || op.Retry? || op.GiveUp?
    requires op.message.id < |w.rows|
    requires var r := w.rows[op.message.id];
             r.status == Publishing && r.claimedBy == Some(op.claimId)
    ensures var r, s := w.rows[op.message.id], Apply(w, op, maxAttempts).rows[op.message.id];
            && s.destination == r.destination && s.attempts == r.attempts && s.rowVersion == r.rowVersion + 1
            && s.claimedBy.None? && s.claimedAt.None?
            && (op.Publish? ==>
                  s.status == Published && s.publishedAt == Some(op.now) && s.availableAt == r.availableAt)
            && (op.Retry? ==> s.status == if op.message.attempts >= maxAttempts then Dead else Pending)
            && (op.GiveUp? ==> s.status == Dead)
            && (op.Retry? || op.GiveUp? ==>
                  && s.publishedAt.None? && s.availableAt == op.now + Backoff(op.message.attempts)
                  && s.lastError.Some? && s.lastError.value <= op.error
                  && |s.lastError.value| == Min(64, |op.error|))
  {
    hide Backoff;
  }

  /** The delay: one second after the first attempt, twice as long after each further one, at most sixty. */
  lemma {:induction false} BackoffDoubles(attempts: nat)
    ensures Backoff(0) == 1 && Backoff(1) == 1
    ensures attempts >= 1 ==> Backoff(attempts + 1) == Min(2 * Backoff(attempts), 60)
  {
    if attempts >= 1 {
      assert Pow2(attempts) == 2 * Pow2(attempts - 1);
      PowPositive(attempts - 1);
    }
  }

  /** A new row waits from its time on, unclaimed. */
  lemma {:induction false} AddedRow(w: World, op: Op, maxAttempts: nat)
    requires op.Add?
    ensures var v := Apply(w, op, maxAttempts);
            && v.issued == w.issued && |v.rows| == |w.rows| + 1 && w.rows <= v.rows
            && v.rows[|w.rows|] == Row(op.destination, Pending, op.availableAt, 0, None, None, None, None, 1)
  {
  }
}
