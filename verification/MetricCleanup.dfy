/** The bounded batch cleanup of metric history (cloudhelm/metrics.py) and the monitor that
    repeats it while there is a backlog (cloudhelm/main.py). */
module MetricCleanup {
  import opened Wrappers

  /** Sample ids and their sampling times. */
  type Table = map<nat, int>

  datatype LimitError = NonPositiveLimits

  function Expired(rows: Table, cutoff: int): set<nat> {
    set id | id in rows && rows[id] < cutoff
  }

  function Without(rows: Table, ids: set<nat>): Table { rows - ids }

  function Live(rows: Table, cutoff: int): set<nat> { rows.Keys - Expired(rows, cutoff) }

  ghost predicate Subtable(before: Table, after: Table) {
    after.Keys <= before.Keys && forall id :: id in after ==> after[id] == before[id]
  }

  /** Every row that is gone is expired, or has a smaller id than every row that is left. */
  ghost predicate SmallestDropped(live: set<nat>, after: set<nat>) {
    forall kept, dropped :: kept in after && dropped in live && dropped !in after ==> dropped < kept
  }

  /** Only expired rows are gone; or every expired row and, without going below the cap,
      the smallest ids. */
  ghost predicate KeysToward(live: set<nat>, after: set<nat>, cap: nat) {
    live <= after || (after <= live && 0 < cap <= |after| && SmallestDropped(live, after))
  }

  ghost predicate Toward(before: Table, after: Table, cutoff: int, cap: nat) {
    Subtable(before, after) && KeysToward(Live(before, cutoff), after.Keys, cap)
  }

  /** The specification of a finished cleanup: exactly the rows inside the retention time,
      cut to the `cap` largest ids when a cap is set. */
  ghost predicate Retained(before: Table, after: Table, cutoff: int, cap: nat) {
    && Toward(before, after, cutoff, cap)
    && Expired(after, cutoff) == {}
    && (cap == 0 || |after| <= cap)
  }

  /** Row by row: nothing new or changed is there; no row older than the cutoff is left; a row
      not older is gone only to make room, that is if a cap is set, exactly so many rows are left
      and all of them have larger ids; and no more than the cap are left. */
  lemma RetainedExactly(before: Table, after: Table, cutoff: int, cap: nat)
    ensures Retained(before, after, cutoff, cap) <==>
      && (forall id :: id in after ==> id in before && after[id] == before[id] && before[id] >= cutoff)
      && (forall id :: id in before && before[id] >= cutoff && id !in after ==>
            cap > 0 && |after| == cap && forall kept :: kept in after ==> id < kept)
      && (cap > 0 ==> |after| <= cap)
  {
    var live := Live(before, cutoff);
    if Retained(before, after, cutoff, cap) {
      forall id | id in after ensures before[id] >= cutoff { assert id !in Expired(after, cutoff); }
      forall id | id in before && before[id] >= cutoff && id !in after
        ensures cap > 0 && |after| == cap && forall kept :: kept in after ==> id < kept
      {
        assert id in live;
        assert |after| == |after.Keys|;
      }
    }
    if && (forall id :: id in after ==> id in before && after[id] == before[id] && before[id] >= cutoff)
       && (forall id :: id in before && before[id] >= cutoff && id !in after ==>
             cap > 0 && |after| == cap && forall kept :: kept in after ==> id < kept)
       && (cap > 0 ==> |after| <= cap)
    {
      assert after.Keys <= live;
      assert |after| == |after.Keys|;
      if !(live <= after.Keys) { var id :| id in live && id !in after; }
    }
  }

  lemma LiveOfSubtable(a: Table, b: Table, cutoff: int)
    requires Subtable(a, b)
    ensures Live(b, cutoff) == Live(a, cutoff) * b.Keys
  {}

  lemma KeysTowardTransitive(liveA: set<nat>, b: set<nat>, c: set<nat>, cap: nat)
    requires KeysToward(liveA, b, cap) && KeysToward(liveA * b, c, cap) && c <= b
    ensures KeysToward(liveA, c, cap)
  {
    if liveA <= b {
      assert liveA * b == liveA;
    } else {
      assert liveA * b == b;
      if b <= c {
        assert c == b;
      } else {
        assert SmallestDropped(liveA, c);
      }
    }
  }

  lemma TowardTransitive(a: Table, b: Table, c: Table, cutoff: int, cap: nat)
    requires Toward(a, b, cutoff, cap) && Toward(b, c, cutoff, cap)
    ensures Toward(a, c, cutoff, cap)
  {
    LiveOfSubtable(a, b, cutoff);
    KeysTowardTransitive(Live(a, cutoff), b.Keys, c.Keys, cap);
  }

  /** The specification determines the table. */
  lemma RetainedUnique(before: Table, a: Table, b: Table, cutoff: int, cap: nat)
    requires Retained(before, a, cutoff, cap) && Retained(before, b, cutoff, cap)
    ensures a == b
  {
    var live := Live(before, cutoff);
    LiveOfSubtable(before, a, cutoff);
    LiveOfSubtable(before, b, cutoff);
    assert a.Keys <= live by { assert a.Keys == Live(a, cutoff); }
    assert b.Keys <= live by { assert b.Keys == Live(b, cutoff); }
    RetainedKeys(live, a.Keys, b.Keys, cap);
  }

  lemma RetainedKeys(live: set<nat>, a: set<nat>, b: set<nat>, cap: nat)
    requires a <= live && b <= live
    requires KeysToward(live, a, cap) && KeysToward(live, b, cap)
    requires cap > 0 ==> |a| <= cap && |b| <= cap
    ensures a == b
  {
    SubsetSize(a, live);
    SubsetSize(b, live);
    if live <= a && live <= b {
      assert a == live == b;
    } else if live <= a {
      ProperSubsetSize(b, live);
      SubsetSize(live, a);
      assert false;
    } else if live <= b {
      ProperSubsetSize(a, live);
      SubsetSize(live, b);
      assert false;
    } else if a != b {
      EqualSizes(a, b);
      EqualSizes(b, a);
    }
  }

  lemma SubsetSize<T>(a: set<T>, b: set<T>)
    requires a <= b
    ensures |a| <= |b| && |b - a| == |b| - |a|
  {
    assert b == a + (b - a);
  }

  lemma ProperSubsetSize<T>(a: set<T>, b: set<T>)
    requires a <= b && !(b <= a)
    ensures |a| < |b|
  {
    SubsetSize(a, b);
    var x :| x in b && x !in a;
    assert x in b - a;
  }

  lemma EqualSizes<T>(a: set<T>, b: set<T>)
    requires |a| == |b| && a != b
    ensures exists x :: x in a && x !in b
  {
    if a <= b { ProperSubsetSize(a, b); }
  }

  // ---------------------------------------------------------------- batches

  /** How many batches of `size` rows clear `n` rows. */
  function Batches(n: int, size: nat): nat
    requires size >= 1
    decreases if n < 0 then 0 else n
  {
    if n <= 0 then 0 else 1 + Batches(n - size, size)
  }

  /** `Batches` is the least number of batches that covers the rows. */
  lemma {:induction false} BatchesLeast(n: nat, size: nat, k: nat)
    requires size >= 1
    ensures Batches(n, size) <= k <==> n <= k * size
    decreases n
  {
    if n == 0 {
    } else if k == 0 {
    } else if n <= size {
      assert k * size >= size;
    } else {
      BatchesLeast(n - size, size, k - 1);
      assert (k - 1) * size == k * size - size;
    }
  }

  lemma BatchStep(n: int, taken: nat, size: nat)
    requires size >= 1 && n >= 1 && taken == if size <= n then size else n
    ensures Batches(n, size) == 1 + Batches(n - taken, size)
  {}

  /** Whether a pass asks for another one: all batches went into expired rows, or the rows
      above the cap do not fit into the batches left over. */
  predicate AsksAgain(expired: nat, total: nat, cap: nat, size: nat, limit: nat)
    requires size >= 1
  {
    || Batches(expired, size) >= limit
    || (cap > 0 && Batches(expired, size) + Batches(total - expired - cap, size) > limit)
  }

  /** The one family of passes that ask again although nothing is left to do: the expired
      rows took exactly the last batch and the cap already holds. */
  predicate AsksInVain(expired: nat, total: nat, cap: nat, size: nat, limit: nat)
    requires size >= 1
  {
    Batches(expired, size) == limit && (cap == 0 || total - expired <= cap)
  }

  lemma MinimumExists(ids: set<nat>, rank: map<nat, int>)
    requires ids != {} && ids <= rank.Keys
    ensures exists x :: x in ids && forall y :: y in ids ==> rank[x] <= rank[y]
  {
    var x :| x in ids;
    if ids - {x} == {} {
      assert ids == {x};
    } else {
      MinimumExists(ids - {x}, rank);
      var m :| m in ids - {x} && forall y :: y in ids - {x} ==> rank[m] <= rank[y];
      if rank[x] <= rank[m] {
        assert forall y :: y in ids ==> rank[x] <= rank[y];
      } else {
        assert forall y :: y in ids ==> rank[m] <= rank[y];
      }
    }
  }

  /** `ORDER BY rank LIMIT limit`: ties in any order. */
  method FirstBy(ids: set<nat>, rank: map<nat, int>, limit: nat) returns (first: set<nat>)
    requires ids <= rank.Keys
    ensures first <= ids && |first| == if limit <= |ids| then limit else |ids|
    ensures forall x, y :: x in first && y in ids - first ==> rank[x] <= rank[y]
  {
    first := {};
    var rest := ids;
    while |first| < limit && rest != {}
      invariant first !! rest && first + rest == ids && |first| + |rest| == |ids|
      invariant |first| <= limit
      invariant forall x, y :: x in first && y in rest ==> rank[x] <= rank[y]
      decreases |rest|
    {
      MinimumExists(rest, rank);
      var x :| x in rest && forall y :: y in rest ==> rank[x] <= rank[y];
      first, rest := first + {x}, rest - {x};
    }
    assert rest == ids - first;
  }

  class MetricHistory {
    var rows: Table

    constructor (rows: Table)
      ensures this.rows == rows
    {
      this.rows := rows;
    }

    /** The first loop: batches of expired rows, oldest first. */
    method DeleteExpired(cutoff: int, ghost cap: nat, batchSize: nat, maxBatches: nat) returns (batches: nat)
      requires batchSize >= 1
      modifies this
      ensures batches <= maxBatches
      ensures ExpiryProgress(old(rows), rows, cutoff, cap, batchSize, batches)
      ensures batches < maxBatches ==> Expired(rows, cutoff) == {}
    {
      StartExpiry(rows, cutoff, cap, batchSize);
      batches := 0;
      while batches < maxBatches
        invariant batches <= maxBatches
        invariant ExpiryProgress(old(rows), rows, cutoff, cap, batchSize, batches)
      {
        var candidates := Expired(rows, cutoff);
        var expired := FirstBy(candidates, rows, batchSize);
        if expired == {} {
          assert candidates == {};
          return;
        }
        ExpiryBatch(old(rows), rows, expired, cutoff, cap, batchSize, batches);
        rows := Without(rows, expired);
        batches := batches + 1;
      }
    }

    /** The second loop: batches of the smallest ids while the table exceeds the cap. */
    method DeleteExcess(ghost start: Table, ghost cutoff: int, cap: nat, batchSize: nat, used: nat, maxBatches: nat)
      returns (more: bool, ghost batches: nat)
      requires batchSize >= 1 && used <= maxBatches
      requires TrimProgress(start, rows, cutoff, cap, batchSize, used)
      modifies this
      ensures batches <= maxBatches && TrimProgress(start, rows, cutoff, cap, batchSize, batches)
      ensures more <==> |rows| > cap
      ensures more ==> batches == maxBatches
    {
      var count: nat := used;
      var excess := |rows| - cap;
      while excess > 0 && count < maxBatches
        invariant count <= maxBatches && excess == |rows| - cap
        invariant TrimProgress(start, rows, cutoff, cap, batchSize, count)
      {
        var limit := if batchSize <= excess then batchSize else excess;
        var oldest := FirstBy(rows.Keys, map id | id in rows :: id, limit);
        TrimBatch(start, rows, oldest, cutoff, cap, batchSize, count);
        rows := Without(rows, oldest);
        excess := excess - |oldest|;
        count := count + 1;
      }
      return excess > 0, count;
    }

    /** One pass. It removes at most `batchSize * maxBatches` rows, moves the table towards
        the specification, and reports False only when the specification is met. */
    method Cleanup(cutoff: int, cap: nat, batchSize: int, maxBatches: int)
      returns (result: Result<bool, LimitError>)
      modifies this
      ensures batchSize < 1 || maxBatches < 1 ==> result == Failure(NonPositiveLimits) && rows == old(rows)
      ensures batchSize >= 1 && maxBatches >= 1 ==>
        && result.Success?
        && PassOutcome(old(rows), rows, cutoff, cap, batchSize, maxBatches, result.value)
    {
      if batchSize < 1 || maxBatches < 1 {
        return Failure(NonPositiveLimits);
      }
      ghost var start := rows;
      var batches := DeleteExpired(cutoff, cap, batchSize, maxBatches);
      if batches == maxBatches {
        ExpiryOnly(start, rows, cutoff, cap, batchSize, maxBatches);
        return Success(true);
      }
      if cap == 0 {
        NoCap(start, rows, cutoff, batchSize, batches, maxBatches);
        return Success(false);
      }
      StartTrim(start, rows, cutoff, cap, batchSize, batches);
      var more, total := DeleteExcess(start, cutoff, cap, batchSize, batches, maxBatches);
      Trimmed(start, rows, cutoff, cap, batchSize, total, maxBatches);
      return Success(more);
    }

    /** The monitor's repetition: it ends, with exactly the specified table. */
    method CleanupUntilDone(cutoff: int, cap: nat, batchSize: nat, maxBatches: nat)
      requires batchSize >= 1 && maxBatches >= 1
      modifies this
      ensures Retained(old(rows), rows, cutoff, cap)
    {
      var backlog := true;
      while backlog
        invariant Toward(old(rows), rows, cutoff, cap)
        invariant !backlog ==> Retained(old(rows), rows, cutoff, cap)
        decreases |rows|, backlog
      {
        ghost var before := rows;
        var result := Cleanup(cutoff, cap, batchSize, maxBatches);
        TowardTransitive(old(rows), before, rows, cutoff, cap);
        SubsetSize(rows.Keys, before.Keys);
        backlog := result.value;
      }
    }
  }

  /** What one pass achieves: a bounded number of rows removed, in the direction of the
      specification; the answer; and when the specification is met. */
  ghost predicate PassOutcome(start: Table, rows: Table, cutoff: int, cap: nat, size: nat, limit: nat, more: bool)
    requires size >= 1
  {
    var expired := |Expired(start, cutoff)|;
    && more == AsksAgain(expired, |start|, cap, size, limit)
    && Toward(start, rows, cutoff, cap)
    && |start| - |rows| <= size * limit
    && (more ==> |rows| < |start|)
    && (Retained(start, rows, cutoff, cap) <==> !more || AsksInVain(expired, |start|, cap, size, limit))
  }

  lemma ExpiryOnly(start: Table, rows: Table, cutoff: int, cap: nat, size: nat, limit: nat)
    requires size >= 1 && limit >= 1 && ExpiryProgress(start, rows, cutoff, cap, size, limit)
    ensures PassOutcome(start, rows, cutoff, cap, size, limit, true)
  {}

  lemma Monotone(size: nat, batches: nat, limit: nat)
    requires batches <= limit
    ensures size * batches <= size * limit
  {}

  lemma NoCap(start: Table, rows: Table, cutoff: int, size: nat, batches: nat, limit: nat)
    requires size >= 1 && batches < limit && ExpiryProgress(start, rows, cutoff, 0, size, batches)
    requires Expired(rows, cutoff) == {}
    ensures PassOutcome(start, rows, cutoff, 0, size, limit, false)
  {
    Monotone(size, batches, limit);
  }

  lemma Trimmed(start: Table, rows: Table, cutoff: int, cap: nat, size: nat, batches: nat, limit: nat)
    requires size >= 1 && limit >= 1 && batches <= limit && TrimProgress(start, rows, cutoff, cap, size, batches)
    requires |rows| <= cap || batches == limit
    requires Batches(|Expired(start, cutoff)|, size) < limit
    ensures PassOutcome(start, rows, cutoff, cap, size, limit, |rows| > cap)
  {
    Monotone(size, batches, limit);
    LeftOver(|rows| - cap, size);
    assert Retained(start, rows, cutoff, cap) <==> |rows| <= cap;
  }

  lemma LeftOver(n: int, size: nat)
    requires size >= 1
    ensures Batches(n, size) > 0 <==> n > 0
  {}

  /** The state of the first loop after some batches. */
  ghost predicate ExpiryProgress(start: Table, rows: Table, cutoff: int, cap: nat, size: nat, batches: nat)
    requires size >= 1
  {
    && Toward(start, rows, cutoff, cap)
    && |start| - |Expired(start, cutoff)| == |rows| - |Expired(rows, cutoff)|
    && batches + Batches(|Expired(rows, cutoff)|, size) == Batches(|Expired(start, cutoff)|, size)
    && |start| - |rows| <= size * batches
    && (batches > 0 ==> |rows| < |start|)
  }

  lemma StartExpiry(rows: Table, cutoff: int, cap: nat, size: nat)
    requires size >= 1
    ensures ExpiryProgress(rows, rows, cutoff, cap, size, 0)
  {}

  lemma ExpiryBatch(start: Table, rows: Table, batch: set<nat>, cutoff: int, cap: nat, size: nat, batches: nat)
    requires size >= 1 && ExpiryProgress(start, rows, cutoff, cap, size, batches)
    requires batch <= Expired(rows, cutoff) && batch != {}
    requires |batch| == if size <= |Expired(rows, cutoff)| then size else |Expired(rows, cutoff)|
    ensures ExpiryProgress(start, Without(rows, batch), cutoff, cap, size, batches + 1)
  {
    var after := Without(rows, batch);
    assert Expired(after, cutoff) == Expired(rows, cutoff) - batch;
    SubsetSize(batch, Expired(rows, cutoff));
    BatchStep(|Expired(rows, cutoff)|, |batch|, size);
    assert after.Keys == rows.Keys - batch;
    SubsetSize(batch, rows.Keys);
    assert Toward(rows, after, cutoff, cap);
    TowardTransitive(start, rows, after, cutoff, cap);
    SubsetSize(rows.Keys, start.Keys);
    assert size * (batches + 1) == size * batches + size;
    assert |batch| >= 1;
  }

  /** The state of the second loop: no expired row is left, a cap is set. */
  ghost predicate TrimProgress(start: Table, rows: Table, cutoff: int, cap: nat, size: nat, batches: nat)
    requires size >= 1
  {
    var expired := |Expired(start, cutoff)|;
    && Toward(start, rows, cutoff, cap) && Expired(rows, cutoff) == {} && cap > 0
    && batches + Batches(|rows| - cap, size) == Batches(expired, size) + Batches(|start| - expired - cap, size)
    && |start| - |rows| <= size * batches
    && (batches > 0 ==> |rows| < |start|)
    && batches >= Batches(expired, size)
  }

  lemma StartTrim(start: Table, rows: Table, cutoff: int, cap: nat, size: nat, batches: nat)
    requires size >= 1 && cap > 0 && ExpiryProgress(start, rows, cutoff, cap, size, batches)
    requires Expired(rows, cutoff) == {}
    ensures TrimProgress(start, rows, cutoff, cap, size, batches)
    ensures Batches(|Expired(start, cutoff)|, size) == batches
  {}

  lemma TrimBatch(start: Table, rows: Table, batch: set<nat>, cutoff: int, cap: nat, size: nat, batches: nat)
    requires size >= 1 && TrimProgress(start, rows, cutoff, cap, size, batches) && |rows| > cap
    requires batch <= rows.Keys && |batch| == if size <= |rows| - cap then size else |rows| - cap
    requires forall x, y :: x in batch && y in rows.Keys - batch ==> x <= y
    ensures TrimProgress(start, Without(rows, batch), cutoff, cap, size, batches + 1)
  {
    var after := Without(rows, batch);
    assert after.Keys == rows.Keys - batch;
    SubsetSize(batch, rows.Keys);
    BatchStep(|rows| - cap, |batch|, size);
    assert SmallestDropped(Live(rows, cutoff), after.Keys);
    assert Toward(rows, after, cutoff, cap);
    TowardTransitive(start, rows, after, cutoff, cap);
    SubsetSize(rows.Keys, start.Keys);
    assert size * (batches + 1) == size * batches + size;
    assert |batch| >= 1;
  }

  /** Asking again does not mean that rows are left: with one row, expired, and one batch of
      one row allowed, every pass removes it, asks again, and has nothing left to do. */
  lemma SomePassAsksInVain(rows: Table, more: bool)
    requires PassOutcome(map[0 := 0], rows, 1, 0, 1, 1, more)
    ensures more && rows == map[] && Retained(map[0 := 0], rows, 1, 0)
  {
    assert Expired(map[0 := 0], 1) == {0};
    assert Batches(1, 1) == 1 + Batches(0, 1);
    assert AsksAgain(1, 1, 0, 1, 1) && AsksInVain(1, 1, 0, 1, 1);
    assert rows.Keys == {};
  }
}
