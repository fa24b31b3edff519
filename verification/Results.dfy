/** Price results over whole runs: redelivery has no effect, the price history
    and `latest_result_at` agree, and the order of arrival does not matter. */
module Results {
  import opened Wrappers
  import opened GatewayDb
  import opened Gateway

  // ─── Exactly-once effects ───────────────────────────────────────────────────

  predicate Redelivery(db: Db, op: Op) {
    op.Processing? && op.result.task.Uuid? && op.result.task.id in db.processed
  }

  /** A delivery of a processed task changes nothing, whatever else it carries. */
  lemma RedeliveryIsNoop(db: Db, r: PriceResult)
    requires r.task.Uuid? && r.task.id in db.processed
    ensures ProcessPriceResult(db, r).0 == db
  {
    assert db.processed + {r.task.id} == db.processed;
  }

  /** The run with every delivery of an already processed task left out. */
  ghost function Erased(db: Db, ops: seq<Op>): (r: seq<Op>)
    requires AdmissibleRun(db, ops)
    decreases |ops|
  {
    if ops == [] then []
    else if Redelivery(db, ops[0]) then RedeliveryIsNoop(db, ops[0].result); Erased(db, ops[1..])
    else [ops[0]] + Erased(Apply(db, ops[0]).0, ops[1..])
  }

  /** At-least-once delivery has exactly-once effects. */
  lemma {:induction false} ExactlyOnce(db: Db, ops: seq<Op>)
    requires AdmissibleRun(db, ops)
    ensures AdmissibleRun(db, Erased(db, ops))
    ensures Run(db, Erased(db, ops)) == Run(db, ops)
    decreases |ops|
  {
    if ops != [] {
      if Redelivery(db, ops[0]) {
        RedeliveryIsNoop(db, ops[0].result);
        ExactlyOnce(db, ops[1..]);
      } else {
        var db' := Apply(db, ops[0]).0;
        ExactlyOnce(db', ops[1..]);
        assert Erased(db, ops)[0] == ops[0] && Erased(db, ops)[1..] == Erased(db', ops[1..]);
      }
    }
  }

  // ─── History ────────────────────────────────────────────────────────────────

  /** One row per task, and only for processed tasks of known products. */
  ghost predicate OneRowPerTask(db: Db) {
    && (forall i, j | 0 <= i < j < |db.history| :: db.history[i].task != db.history[j].task)
    && (forall i | 0 <= i < |db.history| :: db.history[i].task in db.processed && db.history[i].product in db.products)
  }

  ghost predicate RowOf(db: Db, p: Id, i: int) {
    0 <= i < |db.history| && db.history[i].product == p
  }

  /** `latest_result_at` is the greatest timestamp recorded for the product. */
  ghost predicate LatestOf(db: Db, p: Id)
    requires p in db.products
  {
    match db.products[p].latest
    case None => forall i :: !RowOf(db, p, i)
    case Some(t) =>
      && (exists i :: RowOf(db, p, i) && db.history[i].scrapedAt == t)
      && forall i | RowOf(db, p, i) :: db.history[i].scrapedAt <= t
  }

  ghost predicate LatestIsMaximum(db: Db) {
    forall p | p in db.products :: LatestOf(db, p)
  }

  ghost predicate HistoryInv(db: Db) {
    OneRowPerTask(db) && LatestIsMaximum(db)
  }

  /** The unique index on `task_id` never refuses a row. */
  lemma NoHistoryConflict(db: Db, t: Id)
    requires OneRowPerTask(db) && t !in db.processed
    ensures !HistoryHas(db.history, t)
  {
  }

  lemma RecordedLatest(db: Db, p: Id, r: PriceResult, q: Id)
    requires LatestIsMaximum(db) && r.task.Uuid? && p in db.products && q in db.products
    requires r.success && ValidPrice(r.price) && r.scrapedAt.Some?
    ensures LatestOf(Recorded(db, p, r), q)
  {
    var row := HistoryRow(p, r.price.kopecks, r.currency, r.scrapedAt.value, r.task.id);
    OneRowMore(db, Recorded(db, p, r), row, q);
  }

  /** One more history row, and the greater timestamp kept. */
  lemma OneRowMore(db: Db, db': Db, row: HistoryRow, q: Id)
    requires q in db.products && q in db'.products && LatestOf(db, q) && db'.history == db.history + [row]
    requires db'.products[q].latest == if row.product == q && !Stale(db.products[q], row.scrapedAt)
                                       then Some(row.scrapedAt) else db.products[q].latest
    ensures LatestOf(db', q)
  {
    var n := |db.history|;
    assert forall i | RowOf(db', q, i) && i < n :: RowOf(db, q, i);
    if row.product == q && !Stale(db.products[q], row.scrapedAt) {
      assert RowOf(db', q, n);
    } else if db.products[q].latest.Some? {
      var i :| RowOf(db, q, i) && db.history[i].scrapedAt == db.products[q].latest.value;
      assert RowOf(db', q, i);
    }
  }

  lemma RecordedKeepsHistory(db: Db, p: Id, r: PriceResult)
    requires HistoryInv(db) && r.task.Uuid? && r.task.id !in db.processed && p in db.products
    requires r.success ==> ValidPrice(r.price) && r.scrapedAt.Some?
    ensures HistoryInv(Recorded(db, p, r))
  {
    if r.success {
      RecordedOneRow(db, p, r);
      assert LatestIsMaximum(Recorded(db, p, r)) by {
        forall q | q in db.products ensures LatestOf(Recorded(db, p, r), q) {
          RecordedLatest(db, p, r, q);
        }
      }
    } else {
      SameHistory(db, Recorded(db, p, r));
    }
  }

  lemma RecordedOneRow(db: Db, p: Id, r: PriceResult)
    requires OneRowPerTask(db) && r.task.Uuid? && r.task.id !in db.processed && p in db.products
    requires r.success && ValidPrice(r.price) && r.scrapedAt.Some?
    ensures OneRowPerTask(Recorded(db, p, r))
    ensures Recorded(db, p, r).products.Keys == db.products.Keys
  {
  }

  /** The columns the history looks at. */
  ghost predicate SameHistoryColumns(db: Db, db': Db) {
    && db'.history == db.history && db.processed <= db'.processed
    && db.products.Keys <= db'.products.Keys
    && (forall p | p in db.products :: db'.products[p].latest == db.products[p].latest)
    && forall p | p in db'.products && p !in db.products :: db'.products[p].latest.None?
  }

  lemma SameHistory(db: Db, db': Db)
    requires HistoryInv(db) && SameHistoryColumns(db, db')
    ensures HistoryInv(db')
  {
    assert forall q, i :: RowOf(db', q, i) == RowOf(db, q, i);
    forall p | p in db'.products ensures LatestOf(db', p) {
      if p in db.products {
        assert LatestOf(db, p);
      } else {
        assert forall i :: !RowOf(db, p, i);
      }
    }
  }

  lemma RecordedResultKeepsHistory(db: Db, r: PriceResult, db': Db)
    requires HistoryInv(db) && Gateway.ProductRecorded(db, r, db')
    ensures HistoryInv(db')
  {
    RecordedKeepsHistory(db, r.product.id, r);
    SameHistory(Recorded(db, r.product.id, r), db');
  }

  lemma ResultKeepsHistory(db: Db, r: PriceResult)
    requires HistoryInv(db)
    ensures HistoryInv(ProcessPriceResult(db, r).0)
  {
    Gateway.ResultCases(db, r);
    if Gateway.LeavesTables(db, ProcessPriceResult(db, r).0) {
      SameHistory(db, ProcessPriceResult(db, r).0);
    } else {
      RecordedResultKeepsHistory(db, r, ProcessPriceResult(db, r).0);
    }
  }

  lemma {:induction false} BumpAllSameHistory(db: Db, ids: seq<Id>)
    requires forall p | p in ids :: p in db.products
    ensures SameHistoryColumns(db, BumpAll(db, ids))
    decreases |ids|
  {
    if ids != [] {
      BumpAllSameHistory(Bump(db, ids[0]), ids[1..]);
    }
  }

  lemma CreateSameHistory(db: Db, user: Id, p: Id, min: Price, max: Price, newId: Id)
    ensures SameHistoryColumns(db, CreateSubscription(db, user, p, min, max, newId).0)
  {
    var subs := CreateTables(db, user, p, min, max, newId);
  }

  lemma IntakeSameHistory(db: Db, op: Op)
    requires Admissible(db, op)
    requires op.PostingLookup? || op.UpsertingUser? || op.QueueingForce? || op.EnsuringProduct?
    ensures SameHistoryColumns(db, Apply(db, op).0)
  {
    match op
    case PostingLookup(rawURL, lookup, task) => LookupTables(db, rawURL, lookup, task);
    case UpsertingUser(_, _) =>
    case EnsuringProduct(lookup, candidate) => ProductSameHistory(db, lookup, candidate);
    case QueueingForce(s, user, chat, task) => ForceSameHistory(db, s, user, chat, task);
  }

  lemma ProductSameHistory(db: Db, lookup: Id, candidate: Id)
    requires candidate !in db.products
    ensures SameHistoryColumns(db, EnsureProduct(db, lookup, candidate).0)
  {
  }

  lemma ForceSameHistory(db: Db, s: Id, user: Id, chat: Chat, task: Id)
    ensures SameHistoryColumns(db, QueueForce(db, s, user, chat, task).0)
  {
  }

  /** Every transaction keeps the history in step with the products. */
  lemma OpKeepsHistory(db: Db, op: Op)
    requires HistoryInv(db) && Admissible(db, op)
    ensures HistoryInv(Apply(db, op).0)
  {
    match op
    case Processing(r) => ResultKeepsHistory(db, r);
    case _ =>
      OthersSameHistory(db, op);
      SameHistory(db, Apply(db, op).0);
  }

  lemma OthersSameHistory(db: Db, op: Op)
    requires Admissible(db, op) && !op.Processing?
    ensures SameHistoryColumns(db, Apply(db, op).0)
  {
    match op
    case Reconciling(ids) => BumpAllSameHistory(db, ids);
    case Creating(user, p, min, max, newId) => CreateSameHistory(db, user, p, min, max, newId);
    case Mutating(_, _, _) =>
    case _ => IntakeSameHistory(db, op);
  }

  /** In every reachable state: one history row per task, and `latest_result_at`
      is the greatest timestamp ever recorded. */
  lemma {:induction false} RunKeepsHistory(db: Db, ops: seq<Op>)
    requires HistoryInv(db) && AdmissibleRun(db, ops)
    ensures HistoryInv(Run(db, ops))
    decreases |ops|
  {
    if ops != [] {
      OpKeepsHistory(db, ops[0]);
      RunKeepsHistory(Apply(db, ops[0]).0, ops[1..]);
    }
  }

  // ─── Lookup results ─────────────────────────────────────────────────────────

  /** The first result of a lookup task settles that lookup, as found or failed, and
      nothing else; what cannot be a price, and unknown lookups, settle nothing. */
  lemma LookupSettledOnce(db: Db, r: PriceResult)
    requires r.task.Uuid? && r.lookup.Uuid? && r.product == Empty && r.task.id !in db.processed
    ensures var (db', outcome) := ProcessPriceResult(db, r);
            && db' == db.(processed := db'.processed, lookups := db'.lookups) && db'.lookups.Keys == db.lookups.Keys
            && (forall l | l in db.lookups && l != r.lookup.id :: db'.lookups[l] == db.lookups[l])
            && (outcome == Committed ==> db'.processed == db.processed + {r.task.id})
            && (outcome != Committed ==> db' == db)
            && (outcome == Committed && r.lookup.id in db.lookups ==>
                  var status := db'.lookups[r.lookup.id].status;
                  if r.success then ValidPrice(r.price) && status == Done(r.name, r.price.kopecks)
                  else status == LookupStatus.Failed(r.error))
  {
  }
}
