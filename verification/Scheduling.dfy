/** Periodic scheduling: what one `EnqueueDue` call does, and how soon a due
    product gets its turn. */
module Scheduling {
  import opened SchedulerDb

  // ─── One call ───────────────────────────────────────────────────────────────

  /** Generated task ids are new and different. */
  ghost predicate FreshTasks(db: Db, tasks: seq<Id>) {
    && DistinctIds(tasks)
    && forall i | 0 <= i < |tasks| :: Periodic(tasks[i]) !in db.outbox
  }

  /** `ORDER BY` is strict, so a batch lists no row twice. */
  lemma BatchDistinct(rows: map<Id, Row>, now: Time, locked: set<Id>, batch: seq<Id>)
    requires IsBatch(rows, now, locked, batch)
    ensures forall i, j | 0 <= i < j < |batch| :: batch[i] != batch[j]
    ensures |Products(batch)| == |batch|
  {
    forall i, j | 0 <= i < j < |batch| ensures batch[i] != batch[j] {
      assert Before(rows[batch[i]], rows[batch[j]]);
    }
    DistinctCount(batch);
  }

  lemma {:induction false} DistinctCount(batch: seq<Id>)
    requires forall i, j | 0 <= i < j < |batch| :: batch[i] != batch[j]
    ensures |Products(batch)| == |batch|
    decreases |batch|
  {
    if batch != [] {
      var init, last := batch[..|batch| - 1], batch[|batch| - 1];
      DistinctCount(init);
      assert last !in init;
      assert Products(batch) == Products(init) + {last};
    }
  }

  /** What a batch is: at most a hundred active rows whose time has come, earliest first
      and by id where times are equal; none left out that is not locked by others,
      unless a full batch goes before it. */
  lemma BatchIsDue(rows: map<Id, Row>, now: Time, locked: set<Id>, batch: seq<Id>)
    ensures IsBatch(rows, now, locked, batch) <==>
            && |batch| <= 100
            && (forall p | p in batch :: p in rows && rows[p].active && rows[p].next <= now && p !in locked)
            && (forall i, j | 0 <= i < j < |batch| ::
                  var a, b := rows[batch[i]], rows[batch[j]];
                  a.next < b.next || (a.next == b.next && a.id < b.id))
            && forall p | p in rows && rows[p].active && rows[p].next <= now && p !in locked && p !in batch ::
                 |batch| == 100 && forall b | b in batch ::
                   rows[b].next < rows[p].next || (rows[b].next == rows[p].next && rows[b].id < rows[p].id)
  {
  }

  /** A call moves the rows of its batch on by their interval in hours from now, and
      nothing else in the schedule. */
  lemma CallAdvances(db: Db, now: Time, batch: seq<Id>, tasks: seq<Id>)
    requires |tasks| == |batch| && forall p | p in batch :: p in db.rows
    ensures var db' := EnqueueDue(db, now, batch, tasks);
            && db'.rows.Keys == db.rows.Keys && db'.forced == db.forced
            && (forall p | p in batch :: db'.rows[p] == db.rows[p].(next := now + 3600 * db.rows[p].interval))
            && forall p | p in db.rows && p !in batch :: db'.rows[p] == db.rows[p]
  {
  }

  predicate DistinctIds(ids: seq<Id>) {
    forall i, j | 0 <= i < j < |ids| :: ids[i] != ids[j]
  }

  /** The event of the i-th row of a batch. */
  ghost predicate EventOf(rows: map<Id, Row>, batch: seq<Id>, tasks: seq<Id>, i: int, k: Key, e: Task) {
    && 0 <= i < |batch| == |tasks| && batch[i] in rows
    && k == Periodic(tasks[i]) && e == Task(tasks[i], batch[i], rows[batch[i]].url, false, 0)
  }

  ghost predicate OfSomeRow(rows: map<Id, Row>, batch: seq<Id>, tasks: seq<Id>, k: Key, e: Task) {
    exists i :: EventOf(rows, batch, tasks, i, k, e)
  }

  ghost predicate AllOfRows(rows: map<Id, Row>, batch: seq<Id>, tasks: seq<Id>, events: map<Key, Task>) {
    forall k | k in events :: OfSomeRow(rows, batch, tasks, k, events[k])
  }

  /** Every event of a batch is the scrape of one of its rows. */
  lemma {:induction false} EventsOfRows(rows: map<Id, Row>, batch: seq<Id>, tasks: seq<Id>)
    requires |tasks| == |batch| && forall p | p in batch :: p in rows
    ensures AllOfRows(rows, batch, tasks, BatchEvents(rows, batch, tasks))
    decreases |batch|
  {
    if batch != [] {
      var n := |batch| - 1;
      assert forall p | p in batch[..n] :: p in batch;
      EventsOfRows(rows, batch[..n], tasks[..n]);
      var init, events := BatchEvents(rows, batch[..n], tasks[..n]), BatchEvents(rows, batch, tasks);
      forall k | k in events ensures OfSomeRow(rows, batch, tasks, k, events[k]) {
        if k == Periodic(tasks[n]) {
          assert EventOf(rows, batch, tasks, n, k, events[k]);
        } else {
          assert OfSomeRow(rows, batch[..n], tasks[..n], k, init[k]);
          var i :| EventOf(rows, batch[..n], tasks[..n], i, k, init[k]);
          assert EventOf(rows, batch, tasks, i, k, events[k]);
        }
      }
    }
  }

  /** Different task ids: one event per row. */
  lemma {:induction false} OneEventEach(rows: map<Id, Row>, batch: seq<Id>, tasks: seq<Id>)
    requires |tasks| == |batch| && DistinctIds(tasks) && forall p | p in batch :: p in rows
    ensures |BatchEvents(rows, batch, tasks)| == |batch|
    decreases |batch|
  {
    if batch != [] {
      var n := |batch| - 1;
      assert forall p | p in batch[..n] :: p in batch;
      OneEventEach(rows, batch[..n], tasks[..n]);
      EventsOfRows(rows, batch[..n], tasks[..n]);
      assert Periodic(tasks[n]) !in BatchEvents(rows, batch[..n], tasks[..n]);
    }
  }

  /** Rows whose schedule a call moves. */
  ghost function Moved(rows: map<Id, Row>, rows': map<Id, Row>): set<Id>
    requires rows'.Keys == rows.Keys
  {
    set p | p in rows && rows'[p] != rows[p]
  }

  predicate PositiveIntervals(rows: map<Id, Row>) {
    forall p | p in rows :: rows[p].interval > 0
  }

  lemma MovedAreBatch(rows: map<Id, Row>, now: Time, locked: set<Id>, batch: seq<Id>)
    requires IsBatch(rows, now, locked, batch) && PositiveIntervals(rows)
    ensures Moved(rows, AdvanceRows(rows, Products(batch), now)) == Products(batch)
    ensures |Moved(rows, AdvanceRows(rows, Products(batch), now))| == |batch|
  {
    BatchDistinct(rows, now, locked, batch);
    var rows' := AdvanceRows(rows, Products(batch), now);
    forall p | p in batch ensures rows'[p] != rows[p] {
      assert rows'[p].next > now >= rows[p].next;
    }
    assert Moved(rows, rows') == Products(batch);
  }

  /** An event of the batch is the scrape of an active product that was due. */
  ghost predicate ScrapeOfDue(rows: map<Id, Row>, now: Time, batch: seq<Id>, e: Task) {
    && e.product in batch && e.product in rows && e.url == rows[e.product].url && !e.force
    && rows[e.product].active && rows[e.product].next <= now
  }

  lemma EventsAreDue(db: Db, now: Time, locked: set<Id>, batch: seq<Id>, tasks: seq<Id>)
    requires IsBatch(db.rows, now, locked, batch) && |tasks| == |batch| && FreshTasks(db, tasks)
    ensures var events := BatchEvents(db.rows, batch, tasks);
            forall k | k in events :: k !in db.outbox && ScrapeOfDue(db.rows, now, batch, events[k])
  {
    var events := BatchEvents(db.rows, batch, tasks);
    EventsOfRows(db.rows, batch, tasks);
    forall k | k in events ensures k !in db.outbox && ScrapeOfDue(db.rows, now, batch, events[k]) {
      assert OfSomeRow(db.rows, batch, tasks, k, events[k]);
      var i :| EventOf(db.rows, batch, tasks, i, k, events[k]);
      assert batch[i] in batch;
    }
  }

  /** The returned count, the new events and the advanced rows coincide, and every
      new event is the scrape of an active product that was due and has moved. */
  lemma CallCounts(db: Db, now: Time, locked: set<Id>, batch: seq<Id>, tasks: seq<Id>)
    requires IsBatch(db.rows, now, locked, batch) && |tasks| == |batch| && FreshTasks(db, tasks)
    requires PositiveIntervals(db.rows)
    ensures var db' := EnqueueDue(db, now, batch, tasks);
            && |db'.outbox| == |db.outbox| + |batch|
            && Moved(db.rows, db'.rows) == Products(batch) && |Products(batch)| == |batch|
            && (forall k | k in db.outbox :: k in db'.outbox && db'.outbox[k] == db.outbox[k])
            && forall k | k in db'.outbox && k !in db.outbox :: ScrapeOfDue(db.rows, now, batch, db'.outbox[k])
  {
    MovedAreBatch(db.rows, now, locked, batch);
    OneEventEach(db.rows, batch, tasks);
    EventsAreDue(db, now, locked, batch, tasks);
    DisjointSize(db.outbox, BatchEvents(db.rows, batch, tasks));
  }

  lemma DisjointSize(a: map<Key, Task>, b: map<Key, Task>)
    requires a.Keys !! b.Keys
    ensures |a + b| == |a| + |b|
  {
    assert (a + b).Keys == a.Keys + b.Keys;
    assert |(a + b).Keys| == |a.Keys| + |b.Keys|;
  }

  // ─── Nobody waits long ──────────────────────────────────────────────────────

  /** Active rows scheduled before the row of `x`. */
  ghost function Ahead(rows: map<Id, Row>, x: Id): set<Id>
    requires x in rows
  {
    set p | p in rows && rows[p].active && Before(rows[p], rows[x])
  }

  /** A call either serves `x` or serves a full batch of rows ahead of it. */
  lemma CallServesAhead(db: Db, now: Time, batch: seq<Id>, tasks: seq<Id>, x: Id)
    requires IsBatch(db.rows, now, {}, batch) && |tasks| == |batch| && PositiveIntervals(db.rows)
    requires x in db.rows && Due(db.rows[x], now) && x !in batch
    ensures var db' := EnqueueDue(db, now, batch, tasks);
            db'.rows[x] == db.rows[x] && |Ahead(db'.rows, x)| + BATCH <= |Ahead(db.rows, x)|
  {
    var rows, rows' := db.rows, EnqueueDue(db, now, batch, tasks).rows;
    BatchDistinct(rows, now, {}, batch);
    forall p | p in batch ensures p in Ahead(rows, x) && p !in Ahead(rows', x) {
      assert Before(rows[p], rows[x]);
      assert rows'[p].next > now >= rows[x].next;
    }
    assert Ahead(rows', x) + Products(batch) <= Ahead(rows, x);
    assert Ahead(rows', x) !! Products(batch);
    Sizes(Ahead(rows', x), Products(batch), Ahead(rows, x));
  }

  lemma Sizes(a: set<Id>, b: set<Id>, c: set<Id>)
    requires a !! b && a + b <= c
    ensures |a| + |b| <= |c|
  {
    assert |a + b| == |a| + |b|;
    assert c == (a + b) + (c - (a + b));
  }

  datatype Call = Call(now: Time, batch: seq<Id>, tasks: seq<Id>)

  /** Consecutive calls as the clock advances. */
  ghost predicate Calls(db: Db, from: Time, calls: seq<Call>)
    decreases |calls|
  {
    calls != [] ==>
    && from <= calls[0].now
    && IsBatch(db.rows, calls[0].now, {}, calls[0].batch) && |calls[0].tasks| == |calls[0].batch|
    && Calls(EnqueueDue(db, calls[0].now, calls[0].batch, calls[0].tasks), calls[0].now, calls[1..])
  }

  /** A due product with `k` active rows ahead of it is enqueued within k / 100 + 1 calls. */
  lemma {:induction false} ServedWithin(db: Db, from: Time, calls: seq<Call>, x: Id)
    requires Calls(db, from, calls) && PositiveIntervals(db.rows)
    requires x in db.rows && Due(db.rows[x], from)
    requires |calls| > |Ahead(db.rows, x)| / 100
    ensures exists i :: 0 <= i <= |Ahead(db.rows, x)| / 100 && x in calls[i].batch
    decreases |calls|
  {
    var c := calls[0];
    if x !in c.batch {
      var db' := EnqueueDue(db, c.now, c.batch, c.tasks);
      CallServesAhead(db, c.now, c.batch, c.tasks, x);
      ServedWithin(db', c.now, calls[1..], x);
      var i :| 0 <= i <= |Ahead(db'.rows, x)| / 100 && x in calls[1..][i].batch;
      assert calls[i + 1] == calls[1..][i];
    }
  }
}
