/** The outbox dequeuer: one polling pass over the due rows, and the backoff of rows that fail to publish. */
module Dequeuer {
  import opened Wrappers
  import opened Clock
  import opened Numbers

  datatype Config = Config(batchSize: nat, maxAttempts: int, initialRetryDelay: int, maxRetryDelay: int)

  /** Row ids come from a sequence of the database and are positive. */
  type RowId = nat

  datatype Entry = Entry(attemptCount: int, nextAvailableAt: Time)

  // ---------- backoff ----------

  function Min(a: int, b: int): int {
    if a <= b then a else b
  }

  function Clamp(n: int): nat {
    if n < 0 then 0 else if n > 30 then 30 else n
  }

  function RetryDelay(attemptCount: int, initial: int, max: int): int {
    Min(initial * Pow2(Clamp(attemptCount)), max)
  }

  /** The delay after a failure; the last attempt waits the longest. */
  function DelayAfter(c: Config, attemptCount: int): int {
    if attemptCount + 1 >= c.maxAttempts then c.maxRetryDelay
    else RetryDelay(attemptCount, c.initialRetryDelay, c.maxRetryDelay)
  }

  lemma ScaledMonotone(initial: int, m: nat, n: nat)
    requires initial >= 0 && m <= n
    ensures initial * Pow2(m) <= initial * Pow2(n)
  {
    Pow2Monotone(m, n);
    Times(initial, Pow2(m), Pow2(n));
  }

  lemma Times(k: int, a: int, b: int)
    requires k >= 0 && a <= b
    ensures k * a <= k * b
  {}

  /** The capped exponent gives exact doubling up to the maximum for all counts if and only if 30 doublings reach it. */
  lemma BackoffIsExactIff(initial: int, max: int)
    requires initial >= 0
    ensures (forall n: nat :: RetryDelay(n, initial, max) == Min(initial * Pow2(n), max))
       <==> initial == 0 || max <= initial * Pow2(30)
  {
    if initial == 0 || max <= initial * Pow2(30) {
      forall n: nat ensures RetryDelay(n, initial, max) == Min(initial * Pow2(n), max) {
        if n > 30 {
          ScaledMonotone(initial, 30, n);
        }
      }
    } else {
      assert Pow2(31) == 2 * Pow2(30);
      assert initial * Pow2(31) > initial * Pow2(30);
      assert RetryDelay(31, initial, max) != Min(initial * Pow2(31), max);
    }
  }

  /** Over any run of failures of one row the delays never shrink and never exceed the maximum. */
  lemma DelaysNeverShrink(c: Config, a: int, b: int)
    requires c.initialRetryDelay >= 0 && a <= b
    ensures DelayAfter(c, a) <= DelayAfter(c, b) <= c.maxRetryDelay
  {
    ScaledMonotone(c.initialRetryDelay, Clamp(a), Clamp(b));
  }

  /**
    The schedule of one row: the failure after which no attempt is left waits the longest; before that each wait is
    twice the one before, from the initial delay on, as far as 30 doublings and the maximum allow.
   */
  lemma DelaySchedule(c: Config, failed: nat)
    ensures failed + 1 >= c.maxAttempts ==> DelayAfter(c, failed) == c.maxRetryDelay
    ensures failed + 1 < c.maxAttempts ==>
      var doublings := if failed < 30 then failed else 30;
      var wait := c.initialRetryDelay * Pow2(doublings);
      DelayAfter(c, failed) == if wait < c.maxRetryDelay then wait else c.maxRetryDelay
    ensures Pow2(0) == 1 && (failed > 0 ==> Pow2(failed) == 2 * Pow2(failed - 1))
  {}

  lemma DelayPositive(c: Config, a: int)
    requires c.initialRetryDelay > 0 && c.maxRetryDelay > 0
    ensures DelayAfter(c, a) > 0
  {
    var p := Pow2(Clamp(a));
    Times(c.initialRetryDelay, 1, p);
  }

  // ---------- which rows are due ----------

  /** Due rows come in the order of their availability, then of their ids. */
  predicate Before(rows: map<RowId, Entry>, i: RowId, j: RowId)
    requires i in rows && j in rows
  {
    rows[i].nextAvailableAt < rows[j].nextAvailableAt || (rows[i].nextAvailableAt == rows[j].nextAvailableAt && i < j)
  }

  predicate Due(rows: map<RowId, Entry>, now: Time, id: RowId) {
    id in rows && rows[id].nextAvailableAt <= now
  }

  /** The answer of the query: the first `limit` due rows, in order. */
  ghost predicate IsDueBatch(rows: map<RowId, Entry>, now: Time, limit: nat, batch: seq<RowId>) {
    && |batch| <= limit && (forall k :: 0 <= k < |batch| ==> Due(rows, now, batch[k]))
    && (forall j, k :: 0 <= j < k < |batch| ==> Before(rows, batch[j], batch[k]))
    && (forall id :: Due(rows, now, id) && id !in batch ==>
          |batch| == limit && forall k :: 0 <= k < |batch| ==> Before(rows, batch[k], id))
  }

  lemma BatchHasNoRepeats(rows: map<RowId, Entry>, now: Time, limit: nat, batch: seq<RowId>)
    requires IsDueBatch(rows, now, limit, batch)
    ensures forall j, k :: 0 <= j < k < |batch| ==> batch[j] != batch[k]
  {}

  lemma NoEarlierRowLeftOut(rows: map<RowId, Entry>, now: Time, limit: nat, a: seq<RowId>, b: seq<RowId>, k: nat)
    requires IsDueBatch(rows, now, limit, a) && IsDueBatch(rows, now, limit, b)
    requires k < |a| && k < |b| && a[..k] == b[..k]
    ensures !Before(rows, a[k], b[k])
  {
    BatchHasNoRepeats(rows, now, limit, a);
    forall j | 0 <= j < k ensures b[j] == a[j] {
      assert b[j] == b[..k][j] == a[..k][j] == a[j];
    }
    if a[k] in b {
      var i :| 0 <= i < |b| && b[i] == a[k];
      assert i >= k;
    } else {
      assert Due(rows, now, a[k]);
    }
  }

  lemma {:induction false} SamePrefix(rows: map<RowId, Entry>, now: Time, limit: nat, a: seq<RowId>, b: seq<RowId>,
        k: nat)
    requires IsDueBatch(rows, now, limit, a) && IsDueBatch(rows, now, limit, b) && k <= |a| && k <= |b|
    ensures a[..k] == b[..k]
  {
    if k > 0 {
      SamePrefix(rows, now, limit, a, b, k - 1);
      NoEarlierRowLeftOut(rows, now, limit, a, b, k - 1);
      NoEarlierRowLeftOut(rows, now, limit, b, a, k - 1);
      assert a[k - 1] == b[k - 1];
    }
  }

  lemma DueRowIsListed(rows: map<RowId, Entry>, now: Time, limit: nat, batch: seq<RowId>, id: RowId)
    requires IsDueBatch(rows, now, limit, batch) && |batch| < limit
    ensures Due(rows, now, id) ==> id in batch
  {}

  lemma BatchIsNoProperPrefix(rows: map<RowId, Entry>, now: Time, limit: nat, a: seq<RowId>, b: seq<RowId>)
    requires IsDueBatch(rows, now, limit, a) && IsDueBatch(rows, now, limit, b) && a <= b
    ensures a == b
  {
    BatchHasNoRepeats(rows, now, limit, b);
    if |a| < |b| {
      DueRowIsListed(rows, now, limit, a, b[|a|]);
    }
  }

  lemma BatchNotShorter(rows: map<RowId, Entry>, now: Time, limit: nat, a: seq<RowId>, b: seq<RowId>)
    requires IsDueBatch(rows, now, limit, a) && IsDueBatch(rows, now, limit, b)
    ensures |b| <= |a|
  {
    if |a| < |b| {
      SamePrefix(rows, now, limit, a, b, |a|);
      assert a == b[..|a|];
      BatchIsNoProperPrefix(rows, now, limit, a, b);
    }
  }

  /** The query has one answer. */
  lemma BatchIsUnique(rows: map<RowId, Entry>, now: Time, limit: nat, a: seq<RowId>, b: seq<RowId>)
    requires IsDueBatch(rows, now, limit, a) && IsDueBatch(rows, now, limit, b)
    ensures a == b
  {
    BatchNotShorter(rows, now, limit, a, b);
    BatchNotShorter(rows, now, limit, b, a);
    SamePrefix(rows, now, limit, a, b, |a|);
    assert a == a[..|a|] && b == b[..|b|];
  }

  // ---------- one pass ----------

  /** Whether publishing a row succeeds, and whether the database call that follows does. */
  datatype Luck = Luck(published: bool, recorded: bool)

  /** The outbox and the log of what reached the topic. */
  datatype Outbox = Outbox(rows: map<RowId, Entry>, log: seq<RowId>)

  function Rescheduled(c: Config, e: Entry, now: Time): Entry {
    Entry(e.attemptCount + 1, now + DelayAfter(c, e.attemptCount))
  }

  function PublishRow(c: Config, o: Outbox, id: RowId, now: Time, luck: Luck): Outbox {
    if luck.published then Outbox(if luck.recorded then o.rows - {id} else o.rows, o.log + [id])
    else if luck.recorded && id in o.rows then o.(rows := o.rows[id := Rescheduled(c, o.rows[id], now)])
    else o
  }

  /** Rows in order, until a database call fails; the count of published rows, unless one did. */
  function Pass(c: Config, o: Outbox, batch: seq<RowId>, now: Time, luck: RowId -> Luck): (Outbox, Option<nat>)
    decreases |batch|
  {
    if batch == [] then (o, Some(0))
    else
      var t := PublishRow(c, o, batch[0], now, luck(batch[0]));
      if !luck(batch[0]).recorded then (t, None)
      else
        var (u, count) := Pass(c, t, batch[1..], now, luck);
        (u, if count.Some? then Some(count.value + if luck(batch[0]).published then 1 else 0) else None)
  }

  // ---------- what a pass guarantees ----------

  lemma {:induction false} PassLeavesOthers(c: Config, o: Outbox, batch: seq<RowId>, now: Time, luck: RowId -> Luck,
        id: RowId)
    requires id !in batch
    ensures var t := Pass(c, o, batch, now, luck).0;
      (id in t.rows <==> id in o.rows) && (id in t.rows ==> t.rows[id] == o.rows[id])
    decreases |batch|
  {
    if batch != [] {
      assert id != batch[0] && id !in batch[1..];
      PassLeavesOthers(c, PublishRow(c, o, batch[0], now, luck(batch[0])), batch[1..], now, luck, id);
    }
  }

  lemma {:induction false} PassPublishesWhatLeaves(c: Config, o: Outbox, batch: seq<RowId>, now: Time,
        luck: RowId -> Luck, id: RowId)
    requires id in o.rows && forall j, k :: 0 <= j < k < |batch| ==> batch[j] != batch[k]
    ensures var t := Pass(c, o, batch, now, luck).0;
      && o.log <= t.log
      && (id !in t.rows ==> id in t.log[|o.log|..] && luck(id).published)
      && (id in t.rows ==>
          || t.rows[id] == o.rows[id]
          || (t.rows[id] == Rescheduled(c, o.rows[id], now) && !luck(id).published))
    decreases |batch|
  {
    if batch != [] {
      var t := PublishRow(c, o, batch[0], now, luck(batch[0]));
      if id == batch[0] {
        assert id !in batch[1..];
        PassLeavesOthers(c, t, batch[1..], now, luck, id);
        LogGrows(c, t, batch[1..], now, luck);
        if luck(id).published {
          assert t.log == o.log + [id];
          var u := Pass(c, o, batch, now, luck).0;
          assert u.log[|o.log|] == id;
        }
      } else {
        forall j, k | 0 <= j < k < |batch[1..]| ensures batch[1..][j] != batch[1..][k] {
          assert batch[1..][j] == batch[j + 1] && batch[1..][k] == batch[k + 1];
        }
        PassPublishesWhatLeaves(c, t, batch[1..], now, luck, id);
        var u := Pass(c, t, batch[1..], now, luck).0;
        if id !in u.rows {
          var k :| 0 <= k < |u.log[|t.log|..]| && u.log[|t.log|..][k] == id;
          assert u.log[|t.log| + k] == id;
          assert u.log[|o.log|..][|t.log| - |o.log| + k] == id;
        }
      }
    }
  }

  /** The rows of a batch that publishing succeeds for, in order. */
  function PublishedOf(batch: seq<RowId>, luck: RowId -> Luck): seq<RowId> {
    if batch == [] then []
    else (if luck(batch[0]).published then [batch[0]] else []) + PublishedOf(batch[1..], luck)
  }

  /** A pass completes exactly when every database call does. */
  lemma {:induction false} PassCompletes(c: Config, o: Outbox, batch: seq<RowId>, now: Time, luck: RowId -> Luck)
    ensures Pass(c, o, batch, now, luck).1.Some? <==> forall k :: 0 <= k < |batch| ==> luck(batch[k]).recorded
    decreases |batch|
  {
    if batch != [] {
      var rest := batch[1..];
      PassCompletes(c, PublishRow(c, o, batch[0], now, luck(batch[0])), rest, now, luck);
      assert forall k :: 0 < k < |batch| ==> batch[k] == rest[k - 1];
      assert forall k :: 0 <= k < |rest| ==> rest[k] == batch[k + 1];
    }
  }

  /** The first database call that fails ends the pass: later rows are left alone. */
  lemma {:induction false} PassStops(c: Config, o: Outbox, batch: seq<RowId>, now: Time, luck: RowId -> Luck, k: nat)
    requires k < |batch| && !luck(batch[k]).recorded
    ensures Pass(c, o, batch, now, luck) == Pass(c, o, batch[..k + 1], now, luck)
    decreases |batch|
  {
    var first := batch[..k + 1];
    assert first[0] == batch[0];
    if k > 0 {
      PassStops(c, PublishRow(c, o, batch[0], now, luck(batch[0])), batch[1..], now, luck, k - 1);
      assert batch[1..][..k] == first[1..];
    }
  }

  /** Then it has published the rows that publishing succeeded for, in order, and counted them. */
  lemma {:induction false} PassCounts(c: Config, o: Outbox, batch: seq<RowId>, now: Time, luck: RowId -> Luck)
    requires Pass(c, o, batch, now, luck).1.Some?
    ensures var (t, count) := Pass(c, o, batch, now, luck);
      count.value == |PublishedOf(batch, luck)| && t.log == o.log + PublishedOf(batch, luck)
    decreases |batch|
  {
    if batch == [] {
      assert o.log + [] == o.log;
    } else {
      var first := if luck(batch[0]).published then [batch[0]] else [];
      var t := PublishRow(c, o, batch[0], now, luck(batch[0]));
      PassCounts(c, t, batch[1..], now, luck);
      assert t.log == o.log + first;
      assert (o.log + first) + PublishedOf(batch[1..], luck) == o.log + (first + PublishedOf(batch[1..], luck));
    }
  }

  /** A row that is gone reached the topic; a row that stays keeps its count or waits with one failure more. */
  lemma RowsLeaveOnlyPublished(c: Config, o: Outbox, batch: seq<RowId>, now: Time, luck: RowId -> Luck, id: RowId)
    requires IsDueBatch(o.rows, now, c.batchSize, batch) && id in o.rows
    ensures var t := Pass(c, o, batch, now, luck).0;
      && o.log <= t.log
      && (id !in t.rows ==> id in t.log[|o.log|..] && luck(id).published)
      && (id in t.rows ==>
          || t.rows[id] == o.rows[id]
          || (t.rows[id] == Rescheduled(c, o.rows[id], now) && !luck(id).published))
  {
    BatchHasNoRepeats(o.rows, now, c.batchSize, batch);
    PassPublishesWhatLeaves(c, o, batch, now, luck, id);
  }

  lemma {:induction false} LogGrows(c: Config, o: Outbox, batch: seq<RowId>, now: Time, luck: RowId -> Luck)
    ensures o.log <= Pass(c, o, batch, now, luck).0.log
    decreases |batch|
  {
    if batch != [] {
      LogGrows(c, PublishRow(c, o, batch[0], now, luck(batch[0])), batch[1..], now, luck);
    }
  }

  lemma {:induction false} PassSettles(c: Config, o: Outbox, batch: seq<RowId>, now: Time, luck: RowId -> Luck,
        id: RowId)
    requires c.initialRetryDelay > 0 && c.maxRetryDelay > 0 && Pass(c, o, batch, now, luck).1.Some?
    requires id in batch && forall j, k :: 0 <= j < k < |batch| ==> batch[j] != batch[k]
    ensures !Due(Pass(c, o, batch, now, luck).0.rows, now, id)
    decreases |batch|
  {
    var t := PublishRow(c, o, batch[0], now, luck(batch[0]));
    if id == batch[0] {
      assert id !in batch[1..];
      PassLeavesOthers(c, t, batch[1..], now, luck, id);
      if id in o.rows {
        DelayPositive(c, o.rows[id].attemptCount);
      }
    } else {
      forall j, k | 0 <= j < k < |batch[1..]| ensures batch[1..][j] != batch[1..][k] {
        assert batch[1..][j] == batch[j + 1] && batch[1..][k] == batch[k + 1];
      }
      PassSettles(c, t, batch[1..], now, luck, id);
    }
  }

  /**
    With positive delays no row is handled twice at one poll time: after a completed pass the rows still due are
    exactly those that were due and did not fit into its batch.
   */
  lemma NoRowDueTwice(c: Config, o: Outbox, batch: seq<RowId>, now: Time, luck: RowId -> Luck, id: RowId)
    requires c.initialRetryDelay > 0 && c.maxRetryDelay > 0 && Pass(c, o, batch, now, luck).1.Some?
    requires IsDueBatch(o.rows, now, c.batchSize, batch)
    ensures Due(Pass(c, o, batch, now, luck).0.rows, now, id) <==> Due(o.rows, now, id) && id !in batch
  {
    BatchHasNoRepeats(o.rows, now, c.batchSize, batch);
    if id in batch {
      PassSettles(c, o, batch, now, luck, id);
    } else {
      PassLeavesOthers(c, o, batch, now, luck, id);
    }
  }

  // ---------- the dequeuer ----------

  class OutboxDequeuer {
    const config: Config
    var rows: map<RowId, Entry>
    var log: seq<RowId>

    function Contents(): Outbox
      reads this
    {
      Outbox(rows, log)
    }

    constructor (c: Config, o: Outbox)
      ensures config == c && Contents() == o
    {
      config, rows, log := c, o.rows, o.log;
    }

    method Publish(id: RowId, now: Time, luck: Luck) returns (r: Option<bool>)
      modifies this
      ensures Contents() == PublishRow(config, old(Contents()), id, now, luck)
      ensures r == if luck.recorded then Some(luck.published) else None
      ensures log == if luck.published then old(log) + [id] else old(log)
      ensures !luck.recorded ==> rows == old(rows)
      ensures luck.recorded && luck.published ==> rows == old(rows) - {id}
      ensures luck.recorded && !luck.published && id !in old(rows) ==> rows == old(rows)
      ensures luck.recorded && !luck.published && id in old(rows) ==>
        var failed := old(rows)[id].attemptCount;
        rows == old(rows)[id := Entry(failed + 1, now + DelayAfter(config, failed))]
    {
      if luck.published {
        log := log + [id];
        if !luck.recorded {
          return None;
        }
        rows := rows - {id};
        return Some(true);
      }
      if !luck.recorded {
        return None;
      }
      if id in rows {
        var exhausted := rows[id].attemptCount + 1 >= config.maxAttempts;
        var delay := if exhausted then config.maxRetryDelay
                     else RetryDelay(rows[id].attemptCount, config.initialRetryDelay, config.maxRetryDelay);
        rows := rows[id := Entry(rows[id].attemptCount + 1, now + delay)];
      }
      r := Some(false);
    }

    /** The row that the query returns first, of those not taken yet. */
    method Earliest(due: set<RowId>) returns (first: RowId)
      requires |due| > 0 && due <= rows.Keys
      ensures first in due && forall id :: id in due && id != first ==> Before(rows, first, id)
    {
      first :| first in due;
      var rest := due - {first};
      while |rest| > 0
        invariant first in due && rest <= due && first !in rest
        invariant forall id :: id in due && id !in rest && id != first ==> Before(rows, first, id)
        decreases |rest|
      {
        var id :| id in rest;
        rest := rest - {id};
        if Before(rows, id, first) {
          first := id;
        }
      }
    }

    /** The due rows, the longest due first, as many as fit into a batch. */
    method ListDue(now: Time) returns (batch: seq<RowId>)
      ensures IsDueBatch(rows, now, config.batchSize, batch)
      ensures |batch| <= config.batchSize
      ensures forall id :: id in batch ==> id in rows && rows[id].nextAvailableAt <= now
      ensures forall j, k :: 0 <= j < k < |batch| ==>
        || rows[batch[j]].nextAvailableAt < rows[batch[k]].nextAvailableAt
        || (rows[batch[j]].nextAvailableAt == rows[batch[k]].nextAvailableAt && batch[j] < batch[k])
      ensures forall id :: id in rows && rows[id].nextAvailableAt <= now && id !in batch ==>
        |batch| == config.batchSize && forall k :: 0 <= k < |batch| ==>
          rows[batch[k]].nextAvailableAt <= rows[id].nextAvailableAt
    {
      var due := set id | id in rows && rows[id].nextAvailableAt <= now;
      batch := [];
      while |due| > 0 && |batch| < config.batchSize
        invariant |batch| <= config.batchSize
        invariant due <= rows.Keys && (forall k :: 0 <= k < |batch| ==> batch[k] in rows)
        invariant forall id :: Due(rows, now, id) <==> id in due || id in batch
        invariant forall j, k :: 0 <= j < k < |batch| ==> Before(rows, batch[j], batch[k])
        invariant forall k, id :: 0 <= k < |batch| && id in due ==> Before(rows, batch[k], id)
        decreases |due|
      {
        var first := Earliest(due);
        batch := batch + [first];
        due := due - {first};
      }
    }

    /** One pass over the rows the query returns; `listed` is whether it returns at all. */
    method RunOnce(now: Time, listed: bool, luck: RowId -> Luck)
      returns (published: Option<nat>, ghost batch: seq<RowId>)
      modifies this
      ensures IsDueBatch(old(rows), now, config.batchSize, batch)
      ensures (Contents(), published) == if listed then Pass(config, old(Contents()), batch, now, luck)
        else (old(Contents()), None)
    {
      var due := ListDue(now);
      batch := due;
      if !listed {
        return None, batch;
      }
      published := PublishAll(due, now, luck);
    }

    method PublishAll(batch: seq<RowId>, now: Time, luck: RowId -> Luck) returns (published: Option<nat>)
      modifies this
      ensures (Contents(), published) == Pass(config, old(Contents()), batch, now, luck)
    {
      var count := 0;
      var i := 0;
      while i < |batch|
        invariant 0 <= i <= |batch|
        invariant var (t, rest) := Pass(config, Contents(), batch[i..], now, luck);
          Pass(config, old(Contents()), batch, now, luck) == (t, if rest.Some? then Some(count + rest.value) else None)
      {
        assert batch[i..][1..] == batch[i + 1..];
        var one := Publish(batch[i], now, luck(batch[i]));
        if one.None? {
          return None;
        }
        if one.value {
          count := count + 1;
        }
        i := i + 1;
      }
      published := Some(count);
    }
  }
}
