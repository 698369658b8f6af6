/** The `event_outbox` table: row status, backoff, and the batch that one poll selects. */
module Outbox {
  import opened Common
  import opened SessionEvents

  type Id = nat

  datatype Status = Pending | Published | Dead

  datatype OutboxRow = OutboxRow(id: Id, event: Event, status: Status, attempts: nat, nextAttemptAt: int, publishedAt: Option<int>)

  type Table = map<Id, OutboxRow>

  const BATCH_SIZE := 100
  const MAX_ATTEMPTS := 10
  const RETENTION_MS := 30 * 60 * 1000
  const MAX_BACKOFF_MS := 30_000
  const BASE_BACKOFF_MS := 100

  function Pow2(n: nat): (r: nat)
    ensures r >= 1
  {
    if n == 0 then 1 else 2 * Pow2(n - 1)
  }

  /** The delay before the next attempt after `attempts` recorded failures. */
  function Backoff(attempts: nat): int {
    Min(MAX_BACKOFF_MS, BASE_BACKOFF_MS * Pow2(Min(attempts, 10)))
  }

  /** A freshly enqueued row: the column defaults. */
  function Enqueued(id: Id, e: Event, now: int): OutboxRow {
    OutboxRow(id, e, Pending, 0, now, None)
  }

  function MarkPublished(t: Table, id: Id, now: int): Table {
    if id in t then t[id := t[id].(status := Published, publishedAt := Some(now))] else t
  }

  /** What the catch branch writes: the counter comes from the fetched copy `row`, not from the table. */
  function RecordFailure(t: Table, row: OutboxRow, now: int): Table {
    var n := row.attempts + 1;
    if row.id in t then
      t[row.id := t[row.id].(status := if n >= MAX_ATTEMPTS then Dead else Pending,
                             attempts := n, nextAttemptAt := now + Backoff(n))]
    else t
  }

  predicate Expired(r: OutboxRow, now: int) {
    r.status == Published && r.publishedAt.Some? && r.publishedAt.value < now - RETENTION_MS
  }

  function Trim(t: Table, now: int): Table {
    map id | id in t && !Expired(t[id], now) :: t[id]
  }

  predicate Due(r: OutboxRow, now: int) {
    r.status == Pending && r.nextAttemptAt <= now
  }

  function DueIds(t: Table, now: int): set<Id> {
    set id | id in t && Due(t[id], now)
  }

  predicate DistinctIds(batch: seq<OutboxRow>) {
    forall i, j :: 0 <= i < j < |batch| ==> batch[i].id != batch[j].id
  }

  /**
   * What `SELECT … WHERE pending AND nextAttemptAt <= now ORDER BY nextAttemptAt LIMIT 100` may return.
   * Rows with equal times may come in any order, so this is a relation.
   */
  predicate IsDueBatch(t: Table, now: int, batch: seq<OutboxRow>) {
    && |batch| <= BATCH_SIZE
    && DistinctIds(batch)
    && (forall r :: r in batch ==> r.id in t && t[r.id] == r && Due(r, now))
    && (forall i, j :: 0 <= i < j < |batch| ==> batch[i].nextAttemptAt <= batch[j].nextAttemptAt)
    && (forall id :: id in t && Due(t[id], now) && t[id] !in batch ==>
          |batch| == BATCH_SIZE && forall r :: r in batch ==> r.nextAttemptAt <= t[id].nextAttemptAt)
  }

  // ---------------------------------------------------------------- backoff

  lemma {:induction false} Pow2Monotone(a: nat, b: nat)
    requires a <= b
    ensures Pow2(a) <= Pow2(b)
  {
    if a < b { Pow2Monotone(a, b - 1); }
  }

  /** Delays lie between 200 ms and 30 s and never shrink from one failure to a later one. */
  lemma BackoffBounds(a: nat, b: nat)
    requires 1 <= a <= b
    ensures 200 <= Backoff(a) <= Backoff(b) <= 30_000
  {
    assert Pow2(1) == 2;
    Pow2Monotone(1, Min(a, 10));
    Pow2Monotone(Min(a, 10), Min(b, 10));
  }

  /** The delays after the first nine failures, and after any later one. */
  lemma BackoffDelays(n: nat)
    ensures Backoff(1) == 200 && Backoff(2) == 400 && Backoff(3) == 800 && Backoff(4) == 1_600 && Backoff(5) == 3_200
    ensures Backoff(6) == 6_400 && Backoff(7) == 12_800 && Backoff(8) == 25_600
    ensures n >= 9 ==> Backoff(n) == 30_000
  {
    assert Pow2(0) == 1 && Pow2(1) == 2 && Pow2(2) == 4 && Pow2(3) == 8 && Pow2(4) == 16;
    assert Pow2(5) == 32 && Pow2(6) == 64 && Pow2(7) == 128 && Pow2(8) == 256 && Pow2(9) == 512 && Pow2(10) == 1024;
  }

  /** The total delay imposed between the first and the k-th recorded failure. */
  function TotalBackoff(k: nat): int {
    if k <= 1 then 0 else TotalBackoff(k - 1) + Backoff(k - 1)
  }

  lemma TotalBackoffToDeath()
    ensures TotalBackoff(MAX_ATTEMPTS) == 81_000
  {
    assert Pow2(0) == 1 && Pow2(1) == 2 && Pow2(2) == 4 && Pow2(3) == 8 && Pow2(4) == 16;
    assert Pow2(5) == 32 && Pow2(6) == 64 && Pow2(7) == 128 && Pow2(8) == 256 && Pow2(9) == 512;
    assert TotalBackoff(1) == 0;
    assert TotalBackoff(2) == 200;
    assert TotalBackoff(3) == 600;
    assert TotalBackoff(4) == 1400;
    assert TotalBackoff(5) == 3000;
    assert TotalBackoff(6) == 6200;
    assert TotalBackoff(7) == 12600;
    assert TotalBackoff(8) == 25400;
    assert TotalBackoff(9) == 51000;
  }
}
