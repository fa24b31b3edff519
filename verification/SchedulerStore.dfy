/** The Scheduler store: its tables as fields, its transactions as methods. */
module SchedulerStore {
  import opened Wrappers
  import opened SchedulerDb
  import Platform
  import Scheduling

  /** Row ids are primary keys. */
  predicate DistinctRows(rows: map<Id, Row>) {
    forall p, q | p in rows && q in rows && rows[p].id == rows[q].id :: p == q
  }

  predicate First(rows: map<Id, Row>, m: Id, s: set<Id>) {
    m in s && m in rows && forall p | p in s && p != m :: p in rows && Before(rows[m], rows[p])
  }

  lemma {:induction false} FirstExists(rows: map<Id, Row>, s: set<Id>)
    requires s != {} && DistinctRows(rows) && forall p | p in s :: p in rows
    ensures exists m :: First(rows, m, s)
    decreases |s|
  {
    var m :| m in s;
    var rest := s - {m};
    if rest == {} {
      assert s == rest + {m};
      assert First(rows, m, s);
    } else {
      FirstExists(rows, rest);
      var n :| First(rows, n, rest);
      var best := if Before(rows[n], rows[m]) then n else m;
      forall p | p in s && p != best ensures Before(rows[best], rows[p]) {
        assert p in rest || p == m;
      }
      assert First(rows, best, s);
    }
  }

  /** The transactions of the store; `newId` and `tasks` are what its generator hands out. */
  datatype Call =
    | Snapshot(r: Request, now: Time, newId: Id)
    | Force(r: Request)
    | Enqueue(now: Time, locked: set<Id>, batch: seq<Id>, tasks: seq<Id>)

  /** Generated ids are new, and a batch is what the query may return. */
  ghost predicate Allowed(db: Db, call: Call) {
    match call
    case Snapshot(_, _, newId) => forall p | p in db.rows :: db.rows[p].id != newId
    case Force(_) => true
    case Enqueue(now, locked, batch, tasks) => |tasks| == |batch| && IsBatch(db.rows, now, locked, batch)
  }

  function Called(db: Db, call: Call): Db {
    match call
    case Snapshot(r, now, newId) => SchedulerDb.ApplySnapshot(db, r, now, newId).0
    case Force(r) => SchedulerDb.EnqueueForce(db, r).0
    case Enqueue(now, _, batch, tasks) =>
      if |tasks| == |batch| && forall p | p in batch :: p in db.rows then SchedulerDb.EnqueueDue(db, now, batch, tasks)
      else db
  }

  function Run(db: Db, calls: seq<Call>): Db
    decreases |calls|
  {
    if calls == [] then db else Run(Called(db, calls[0]), calls[1..])
  }

  ghost predicate AllAllowed(db: Db, calls: seq<Call>)
    decreases |calls|
  {
    calls != [] ==> Allowed(db, calls[0]) && AllAllowed(Called(db, calls[0]), calls[1..])
  }

  /** Row ids stay primary keys, over any run of the three transactions: with
      them the order of the batch query is total, and its answer unique. */
  lemma {:induction false} RunKeepsDistinct(db: Db, calls: seq<Call>)
    requires DistinctRows(db.rows) && AllAllowed(db, calls)
    ensures DistinctRows(Run(db, calls).rows)
    decreases |calls|
  {
    if calls != [] {
      CallKeepsDistinct(db, calls[0]);
      RunKeepsDistinct(Called(db, calls[0]), calls[1..]);
    }
  }

  /** What a snapshot may be: the fields of a state, canonical, and no mismatch of
      product and URL with the rows there are. */
  ghost predicate Acceptable(db: Db, r: Request) {
    && r.setState && r.version >= 1 && r.intervalHours >= 1 && r.product.Some? && r.task.Some?
    && Platform.Canonical(r.url) && r.platform == "wb"
    && forall q | q in db.rows :: q == r.product.value <==> db.rows[q].url == r.url
  }

  /** An acceptable snapshot is committed, and no other; it inserts a row that is due at
      once, or takes over a newer state and leaves the schedule alone. */
  lemma SnapshotLeaves(db: Db, r: Request, now: Time, newId: Id)
    ensures var (db', outcome) := SchedulerDb.ApplySnapshot(db, r, now, newId);
            && outcome == (if Acceptable(db, r) then Committed else Invalid)
            && db'.forced == db.forced && db'.outbox == db.outbox && (outcome == Invalid ==> db' == db)
            && (outcome == Committed ==>
                  var p := r.product.value;
                  && p in db'.rows && db'.rows.Keys == db.rows.Keys + {p}
                  && (forall q | q in db.rows && q != p :: db'.rows[q] == db.rows[q])
                  && db'.rows[p].url == r.url
                  && db'.rows[p].id == (if p in db.rows then db.rows[p].id else newId)
                  && db'.rows[p].next == (if p in db.rows then db.rows[p].next else now)
                  && if p in db.rows && r.version <= db.rows[p].version then db'.rows[p] == db.rows[p]
                     else db'.rows[p].version == r.version && db'.rows[p].active == r.active
                          && db'.rows[p].interval == r.intervalHours)
  {
    IdentityIsCanonical(r.url, r.platform);
  }

  lemma IdentityIsCanonical(url: string, platform: string)
    ensures Platform.ValidWBIdentity(url, platform) <==> Platform.Canonical(url) && platform == "wb"
  {
    Platform.AcceptsExactlyCanonical(url);
  }

  /** A force command is committed if it names a product and a task, its URL is canonical
      and there is no mismatch. The first of a task stores exactly its one scrape,
      addressed to the requesting chat; the schedule is never touched. */
  lemma ForceLeaves(db: Db, r: Request)
    requires forall t :: Forced(t) in db.outbox <==> t in db.forced
    ensures var (db', outcome) := SchedulerDb.EnqueueForce(db, r);
            && (outcome == Committed <==>
                  && !r.setState && r.product.Some? && r.task.Some? && Platform.Canonical(r.url) && r.platform == "wb"
                  && forall q | q in db.rows ::
                       (q == r.product.value ==> db.rows[q].url == r.url)
                       && (db.rows[q].url == r.url ==> q == r.product.value))
            && db'.rows == db.rows && (outcome == Committed || outcome == Invalid)
            && if outcome == Committed && r.task.value !in db.forced then
                 db' == Db(db.rows, db.forced + {r.task.value},
                           db.outbox[Forced(r.task.value) :=
                                       Task(r.task.value, r.product.value, r.url, true, r.chat)])
               else db' == db
  {
    IdentityIsCanonical(r.url, r.platform);
  }

  /** Rows keep their time through snapshots and force commands; batches move it. */
  lemma CallKeepsTimes(db: Db, call: Call, p: Id)
    requires Allowed(db, call) && p in db.rows
    ensures p in Called(db, call).rows
    ensures call.Enqueue? && p in call.batch ==>
              && db.rows[p].next <= call.now
              && Called(db, call).rows[p].next == call.now + 3600 * db.rows[p].interval
    ensures !(call.Enqueue? && p in call.batch) ==> Called(db, call).rows[p].next == db.rows[p].next
  {
    match call {
      case Snapshot(r, now, newId) => SnapshotLeaves(db, r, now, newId);
      case Force(r) =>
      case Enqueue(now, locked, batch, tasks) => Scheduling.CallAdvances(db, now, batch, tasks);
    }
  }

  lemma CallKeepsIntervals(db: Db, call: Call)
    requires Allowed(db, call) && Scheduling.PositiveIntervals(db.rows)
    ensures Scheduling.PositiveIntervals(Called(db, call).rows)
  {
    match call {
      case Snapshot(r, now, newId) => SnapshotLeaves(db, r, now, newId);
      case Force(r) =>
      case Enqueue(now, locked, batch, tasks) => Scheduling.CallAdvances(db, now, batch, tasks);
    }
  }

  predicate Serves(call: Call, p: Id) {
    call.Enqueue? && p in call.batch
  }

  /** The next time a row is served, it was due. */
  lemma {:induction false} ServedWhenDue(db: Db, calls: seq<Call>, p: Id, j: nat)
    requires AllAllowed(db, calls) && p in db.rows && Scheduling.PositiveIntervals(db.rows)
    requires j < |calls| && Serves(calls[j], p)
    ensures db.rows[p].next <= calls[j].now
    decreases |calls|
  {
    CallKeepsTimes(db, calls[0], p);
    CallKeepsIntervals(db, calls[0]);
    if j > 0 {
      ServedWhenDue(Called(db, calls[0]), calls[1..], p, j - 1);
    }
  }

  /** However snapshots, force commands and batches follow each other, a product that
      was served at some time is not served again before its interval, in hours of
      3600 seconds, has passed. */
  lemma {:induction false} ServedApart(db: Db, calls: seq<Call>, p: Id, i: nat, j: nat)
    requires AllAllowed(db, calls) && Scheduling.PositiveIntervals(db.rows)
    requires i < j < |calls| && Serves(calls[i], p) && Serves(calls[j], p)
    ensures AllAllowed(db, calls[..i]) && p in Run(db, calls[..i]).rows
    ensures calls[i].now + 3600 * Run(db, calls[..i]).rows[p].interval <= calls[j].now
    decreases |calls|
  {
    CallKeepsIntervals(db, calls[0]);
    var db1 := Called(db, calls[0]);
    if i == 0 {
      CallKeepsTimes(db, calls[0], p);
      ServedWhenDue(db1, calls[1..], p, j - 1);
    } else {
      ServedApart(db1, calls[1..], p, i - 1, j - 1);
      assert calls[..i][1..] == calls[1..][..i - 1];
    }
  }

  lemma CallKeepsDistinct(db: Db, call: Call)
    requires DistinctRows(db.rows) && Allowed(db, call)
    ensures DistinctRows(Called(db, call).rows)
  {
    match call {
      case Snapshot(r, now, newId) =>
        var rows' := SchedulerDb.ApplySnapshot(db, r, now, newId).0.rows;
        forall p, q | p in rows' && q in rows' && rows'[p].id == rows'[q].id ensures p == q {
          assert p in db.rows ==> rows'[p].id == db.rows[p].id;
          assert q in db.rows ==> rows'[q].id == db.rows[q].id;
        }
      case Force(_) =>
      case Enqueue(now, _, batch, _) =>
        var rows' := AdvanceRows(db.rows, Products(batch), now);
        forall p, q | p in rows' && q in rows' && rows'[p].id == rows'[q].id ensures p == q {
          assert rows'[p].id == db.rows[p].id && rows'[q].id == db.rows[q].id;
        }
    }
  }

  /** With distinct row ids the batch query has exactly one answer. */
  lemma BatchIsUnique(db: Db, now: Time, locked: set<Id>, batch: seq<Id>, other: seq<Id>)
    requires DistinctRows(db.rows)
    requires IsBatch(db.rows, now, locked, batch) && IsBatch(db.rows, now, locked, other)
    ensures batch == other
  {
    SameFront(db.rows, now, locked, batch, other, |batch|);
    SameFront(db.rows, now, locked, other, batch, |other|);
  }

  /** Both answers begin alike, as far as either goes. */
  lemma {:induction false} SameFront(rows: map<Id, Row>, now: Time, locked: set<Id>, batch: seq<Id>, other: seq<Id>,
                                     n: nat)
    requires DistinctRows(rows) && n <= |batch|
    requires IsBatch(rows, now, locked, batch) && IsBatch(rows, now, locked, other)
    ensures n <= |other| && batch[..n] == other[..n]
  {
    if n > 0 {
      SameFront(rows, now, locked, batch, other, n - 1);
      var p := batch[n - 1];
      NotBefore(rows, now, locked, batch, n - 1);
      assert other == other[..|other|] && p !in batch[..n - 1];
      NextAlike(rows, now, locked, batch, other, n - 1);
      NextAlike(rows, now, locked, other, batch, n - 1);
      assert batch[..n] == batch[..n - 1] + [p] && other[..n] == other[..n - 1] + [other[n - 1]];
    }
  }

  /** After a common front, the next row of one answer is no later than that of the other. */
  lemma NextAlike(rows: map<Id, Row>, now: Time, locked: set<Id>, batch: seq<Id>, other: seq<Id>, i: nat)
    requires DistinctRows(rows) && i < |batch| && i < |other| && batch[..i] == other[..i]
    requires IsBatch(rows, now, locked, batch) && IsBatch(rows, now, locked, other)
    ensures batch[i] == other[i] || Before(rows[batch[i]], rows[other[i]])
  {
    var p, q := batch[i], other[i];
    NotBefore(rows, now, locked, other, i);
    assert forall j | 0 <= j < i :: batch[j] in batch[..i];
    if q in batch {
      var j :| 0 <= j < |batch| && batch[j] == q;
    } else {
      assert p in batch;
    }
  }

  /** No row is listed twice. */
  lemma NotBefore(rows: map<Id, Row>, now: Time, locked: set<Id>, batch: seq<Id>, i: nat)
    requires IsBatch(rows, now, locked, batch) && i < |batch|
    ensures batch[i] !in batch[..i]
  {
    Scheduling.BatchDistinct(rows, now, locked, batch);
  }

  /** The ids the generator hands out during one call. */
  function TaskIds(newTask: nat -> Id, n: nat): seq<Id> {
    seq(n, i requires 0 <= i < n => newTask(i))
  }

  lemma OneMoreRow(rows: map<Id, Row>, done: set<Id>, p: Id, now: Time)
    requires p in rows && p !in done
    ensures AdvanceRows(rows, done, now)[p] == rows[p]
    ensures AdvanceRows(rows, done + {p}, now) == AdvanceRows(rows, done, now)[p := Advanced(rows[p], now)]
  {
  }

  lemma OneMoreEvent(rows: map<Id, Row>, batch: seq<Id>, tasks: seq<Id>, i: nat)
    requires i < |batch| == |tasks| && forall p | p in batch :: p in rows
    ensures forall p | p in batch[..i] :: p in rows
    ensures forall p | p in batch[..i + 1] :: p in rows
    ensures BatchEvents(rows, batch[..i + 1], tasks[..i + 1]) ==
            BatchEvents(rows, batch[..i], tasks[..i])
              [Periodic(tasks[i]) := Task(tasks[i], batch[i], rows[batch[i]].url, false, 0)]
  {
    assert batch[..i + 1][..i] == batch[..i] && tasks[..i + 1][..i] == tasks[..i];
  }

  lemma NothingEnqueued(db: Db, now: Time)
    ensures EnqueueDue(db, now, [], []) == db
  {
    assert AdvanceRows(db.rows, Products([]), now) == db.rows;
  }

  /** One more row of the batch. */
  lemma OneMoreEntry(db: Db, now: Time, batch: seq<Id>, tasks: seq<Id>, i: nat)
    requires i < |batch| == |tasks| && (forall p | p in batch :: p in db.rows)
    requires forall k, j | 0 <= k < j < |batch| :: batch[k] != batch[j]
    ensures forall p | p in batch[..i] :: p in db.rows
    ensures forall p | p in batch[..i + 1] :: p in db.rows
    ensures batch[i] in EnqueueDue(db, now, batch[..i], tasks[..i]).rows
    ensures EnqueueDue(db, now, batch[..i], tasks[..i]).rows[batch[i]] == db.rows[batch[i]]
    ensures EnqueueDue(db, now, batch[..i + 1], tasks[..i + 1]) ==
            EnqueueDue(db, now, batch[..i], tasks[..i]).(
              rows := EnqueueDue(db, now, batch[..i], tasks[..i]).rows[batch[i] := Advanced(db.rows[batch[i]], now)],
              outbox := EnqueueDue(db, now, batch[..i], tasks[..i]).outbox
                [Periodic(tasks[i]) := Task(tasks[i], batch[i], db.rows[batch[i]].url, false, 0)])
  {
    var p := batch[i];
    assert p !in Products(batch[..i]) && Products(batch[..i + 1]) == Products(batch[..i]) + {p};
    OneMoreRow(db.rows, Products(batch[..i]), p, now);
    OneMoreEvent(db.rows, batch, tasks, i);
  }

  class Store {
    var rows: map<Id, Row>
    var forced: set<Id>
    var outbox: map<Key, Task>

    function Tables(): Db
      reads this
    {
      Db(rows, forced, outbox)
    }

    constructor ()
      ensures Tables() == Db(map[], {}, map[])
    {
      rows, forced, outbox := map[], {}, map[];
    }

    method ApplySnapshot(r: Request, now: Time, newId: Id) returns (outcome: Outcome)
      modifies this
      ensures (Tables(), outcome) == SchedulerDb.ApplySnapshot(old(Tables()), r, now, newId)
    {
      if !r.setState || r.version <= 0 || r.intervalHours <= 0 {
        return Invalid;
      }
      if r.product.None? {
        return Invalid;
      }
      if r.task.None? {
        return Invalid;
      }
      if !Platform.ValidWBIdentity(r.url, r.platform) {
        return Invalid;
      }
      var p := r.product.value;
      if p in rows && rows[p].url != r.url {
        return Invalid;
      }
      // INSERT ... ON CONFLICT(url) DO UPDATE ... WHERE newer AND same product
      if q :| q in rows && rows[q].url == r.url && q != p {
        return Invalid;
      } else if p !in rows {
        rows := rows[p := Row(newId, r.url, now, r.intervalHours, r.active, r.version)];
      } else if rows[p].version < r.version {
        rows := rows[p := rows[p].(interval := r.intervalHours, active := r.active, version := r.version)];
      }
      outcome := Committed;
    }

    method EnqueueForce(r: Request) returns (outcome: Outcome)
      modifies this
      ensures (Tables(), outcome) == SchedulerDb.EnqueueForce(old(Tables()), r)
    {
      if r.setState || r.product.None? || !Platform.ValidWBIdentity(r.url, r.platform) {
        return Invalid;
      }
      if r.task.None? {
        return Invalid;
      }
      var p, t := r.product.value, r.task.value;
      if p in rows && rows[p].url != r.url {
        return Invalid;
      }
      if q :| q in rows && rows[q].url == r.url && q != p {
        return Invalid;
      }
      if t in forced {
        return Committed;
      }
      if Forced(t) in outbox {
        return DbError;
      }
      forced := forced + {t};
      outbox := outbox[Forced(t) := Task(t, p, r.url, true, r.chat)];
      outcome := Committed;
    }

    /** The batch query: the first `BATCH` due rows that nobody has locked. */
    method SelectDue(now: Time, locked: set<Id>) returns (batch: seq<Id>)
      requires DistinctRows(rows)
      ensures IsBatch(rows, now, locked, batch)
    {
      batch := [];
      var rest := set p | p in rows && Due(rows[p], now) && p !in locked;
      while rest != {} && |batch| < BATCH
        invariant |batch| <= BATCH
        invariant forall p | p in rows && Due(rows[p], now) && p !in locked :: p in rest || p in batch
        invariant forall p | p in rest :: p in rows && Due(rows[p], now) && p !in locked && p !in batch
        invariant forall p | p in batch :: p in rows && Due(rows[p], now) && p !in locked
        invariant forall i, j | 0 <= i < j < |batch| :: Before(rows[batch[i]], rows[batch[j]])
        invariant forall b, p | b in batch && p in rest :: Before(rows[b], rows[p])
        decreases rest
      {
        FirstExists(rows, rest);
        var m :| m in rest && First(rows, m, rest);
        batch, rest := batch + [m], rest - {m};
      }
    }

    /** The loop over the selected rows, inside the transaction. */
    static method EnqueueEach(db: Db, now: Time, entries: seq<Id>, newTask: nat -> Id) returns (tx: Db)
      requires forall p | p in entries :: p in db.rows
      requires forall i, j | 0 <= i < j < |entries| :: entries[i] != entries[j]
      ensures tx == SchedulerDb.EnqueueDue(db, now, entries, TaskIds(newTask, |entries|))
    {
      ghost var tasks := TaskIds(newTask, |entries|);
      tx := db;
      NothingEnqueued(db, now);
      for i := 0 to |entries|
        invariant forall p | p in entries[..i] :: p in db.rows
        invariant tx == SchedulerDb.EnqueueDue(db, now, entries[..i], tasks[..i])
      {
        var p := entries[i];
        OneMoreEntry(db, now, entries, tasks, i);
        var task := Task(newTask(i), p, tx.rows[p].url, false, 0);
        tx := tx.(outbox := tx.outbox[Periodic(task.task) := task]);
        tx := tx.(rows := tx.rows[p := tx.rows[p].(next := now + tx.rows[p].interval * HOUR)]);
      }
      assert entries[..|entries|] == entries && tasks[..|tasks|] == tasks;
    }

    method EnqueueDue(now: Time, locked: set<Id>, newTask: nat -> Id) returns (count: nat, ghost batch: seq<Id>)
      requires DistinctRows(rows)
      modifies this
      ensures IsBatch(old(rows), now, locked, batch) && count == |batch|
      ensures Tables() == SchedulerDb.EnqueueDue(old(Tables()), now, batch, TaskIds(newTask, |batch|))
    {
      var entries := SelectDue(now, locked);
      Scheduling.BatchDistinct(rows, now, locked, entries);
      var tx := EnqueueEach(Tables(), now, entries, newTask);
      rows, forced, outbox := tx.rows, tx.forced, tx.outbox;
      count, batch := |entries|, entries;
    }
  }
}
