/** The Scheduler's tables and transactions: the version-guarded replica of
    monitoring states, one-shot force commands, and the due batch. */
module SchedulerDb {
  import opened Wrappers
  import Platform

  type Id = nat
  type Time = int
  type Chat = int

  const HOUR: Time := 3600

  /** `next` is `next_check_at` in seconds, `interval` is `check_interval_hours`. */
  datatype Row = Row(id: Id, url: string, next: Time, interval: int, active: bool, version: nat)

  datatype Task = Task(task: Id, product: Id, url: string, force: bool, chat: Chat)

  datatype Key = Periodic(task: Id) | Forced(task: Id)

  /** `rows` is keyed by `product_id`, which is unique; so is the URL. */
  datatype Db = Db(rows: map<Id, Row>, forced: set<Id>, outbox: map<Key, Task>)

  datatype Outcome = Committed | Invalid | DbError

  /** A track request after `uuid.Parse`; `None` stands for an id that does not parse. */
  datatype Request = Request(setState: bool, task: Option<Id>, product: Option<Id>, url: string, platform: string,
                             version: int, active: bool, intervalHours: int, chat: Chat)

  /** Another product already holds the URL. */
  predicate UrlTaken(rows: map<Id, Row>, p: Id, url: string) {
    exists q | q in rows :: q != p && rows[q].url == url
  }

  /** ApplySnapshot; `newId` is the id generated should a row be inserted. */
  function ApplySnapshot(db: Db, r: Request, now: Time, newId: Id): (Db, Outcome) {
    if !r.setState || r.version <= 0 || r.intervalHours <= 0 then (db, Invalid)
    else if r.product.None? || r.task.None? then (db, Invalid)
    else if !Platform.ValidWBIdentity(r.url, r.platform) then (db, Invalid)
    else
      var p := r.product.value;
      if p in db.rows && db.rows[p].url != r.url then (db, Invalid)
      else if UrlTaken(db.rows, p, r.url) then (db, Invalid)
      else if p !in db.rows then
        (db.(rows := db.rows[p := Row(newId, r.url, now, r.intervalHours, r.active, r.version)]), Committed)
      else if db.rows[p].version < r.version then
        (db.(rows := db.rows[p := db.rows[p].(interval := r.intervalHours, active := r.active, version := r.version)]),
         Committed)
      else (db, Committed)
  }

  function EnqueueForce(db: Db, r: Request): (Db, Outcome) {
    if r.setState || r.product.None? || !Platform.ValidWBIdentity(r.url, r.platform) then (db, Invalid)
    else if r.task.None? then (db, Invalid)
    else
      var p, t := r.product.value, r.task.value;
      if p in db.rows && db.rows[p].url != r.url then (db, Invalid)
      else if UrlTaken(db.rows, p, r.url) then (db, Invalid)
      else if t in db.forced then (db, Committed)
      else if Forced(t) in db.outbox then (db, DbError)
      else (db.(forced := db.forced + {t}, outbox := db.outbox[Forced(t) := Task(t, p, r.url, true, r.chat)]),
            Committed)
  }

  // ─── The due batch ──────────────────────────────────────────────────────────

  const BATCH: nat := 100

  /** `active AND next_check_at <= NOW()`. */
  predicate Due(row: Row, now: Time) {
    row.active && row.next <= now
  }

  /** `ORDER BY next_check_at, id`. */
  predicate Before(a: Row, b: Row) {
    a.next < b.next || (a.next == b.next && a.id < b.id)
  }

  /** What the query may return while others hold the row locks in `locked`: the
      first `BATCH` due rows it can lock, in order, by product. */
  ghost predicate IsBatch(rows: map<Id, Row>, now: Time, locked: set<Id>, batch: seq<Id>) {
    && |batch| <= BATCH
    && (forall p | p in batch :: p in rows && Due(rows[p], now) && p !in locked)
    && (forall i, j | 0 <= i < j < |batch| :: Before(rows[batch[i]], rows[batch[j]]))
    && forall p | p in rows && Due(rows[p], now) && p !in locked && p !in batch ::
         |batch| == BATCH && forall b | b in batch :: Before(rows[b], rows[p])
  }

  function Advanced(row: Row, now: Time): Row {
    row.(next := now + row.interval * HOUR)
  }

  /** Every row in the batch advanced. */
  function AdvanceRows(rows: map<Id, Row>, batch: set<Id>, now: Time): map<Id, Row> {
    map p | p in rows :: if p in batch then Advanced(rows[p], now) else rows[p]
  }

  /** The events of a batch whose tasks got the ids `tasks`. */
  function BatchEvents(rows: map<Id, Row>, batch: seq<Id>, tasks: seq<Id>): map<Key, Task>
    requires |tasks| == |batch| && forall p | p in batch :: p in rows
  {
    if batch == [] then map[]
    else
      var n := |batch| - 1;
      assert forall p | p in batch[..n] :: p in batch;
      BatchEvents(rows, batch[..n], tasks[..n])
        [Periodic(tasks[n]) := Task(tasks[n], batch[n], rows[batch[n]].url, false, 0)]
  }

  function Products(batch: seq<Id>): set<Id> {
    set p | p in batch
  }

  /** EnqueueDue on the batch the query returned. */
  function EnqueueDue(db: Db, now: Time, batch: seq<Id>, tasks: seq<Id>): Db
    requires |tasks| == |batch| && forall p | p in batch :: p in db.rows
  {
    db.(rows := AdvanceRows(db.rows, Products(batch), now), outbox := db.outbox + BatchEvents(db.rows, batch, tasks))
  }
}
