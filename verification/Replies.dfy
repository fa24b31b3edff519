/** What every price result leaves behind after any run: which messages are taken,
    what a force request is answered, and what all other results record. */
module Replies {
  import opened Wrappers
  import opened GatewayDb
  import opened Gateway
  import Results
  import Alerting
  import Commands

  // ─── Which messages are taken ───────────────────────────────────────────────

  predicate WellFormed(r: PriceResult) {
    && r.task.Uuid?
    && (r.lookup == Empty || r.product == Empty)
    && (if r.lookup == Empty then r.product.Uuid? else r.lookup.Uuid?)
    && (r.success ==> r.price.Finite? && 0 <= r.price.kopecks)
  }

  /** It claims to answer a force request that does not exist. */
  predicate Orphan(db: Db, r: PriceResult)
    requires r.task.Uuid?
  {
    r.force && r.task.id !in db.force
  }

  /** A product's result that can be stored: about a known product, about the product of
      its force request if it has one, and with a time unless there is nothing to record. */
  predicate Acceptable(db: Db, r: PriceResult)
    requires r.task.Uuid? && r.product.Uuid?
  {
    && r.product.id in db.products
    && (r.task.id in db.force ==> db.force[r.task.id].product == r.product.id)
    && (r.success && r.task.id !in db.processed && !Orphan(db, r) ==> r.scrapedAt.Some?)
  }

  predicate Taken(db: Db, r: PriceResult) {
    WellFormed(r) && (r.lookup == Empty ==> Acceptable(db, r))
  }

  /** Ten digits before the point are all the column holds. */
  predicate TooLarge(r: PriceResult)
    requires r.success ==> r.price.Finite?
  {
    r.success && 10_000_000_000 * 100 <= r.price.kopecks
  }

  /** The result of a known task that is not yet processed would write its price. */
  predicate Writes(db: Db, r: PriceResult)
    requires Taken(db, r)
  {
    r.task.id !in db.processed && if r.lookup == Empty then !Orphan(db, r) else r.lookup.id in db.lookups
  }

  /** After any run: a message is rejected if it can never be stored, comes back if its
      price does not fit the column, and is otherwise committed and its task processed. */
  lemma OutcomeIsExact(db: Db, r: PriceResult)
    requires Commands.Reached(db)
    ensures var (db', outcome) := ProcessPriceResult(db, r);
            && outcome == (if !Taken(db, r) then Invalid
                           else if TooLarge(r) && Writes(db, r) then DbError else Committed)
            && (outcome != Committed ==> db' == db)
            && (outcome == Committed ==> db'.processed == db.processed + {r.task.id})
  {
    Commands.ReachedIsSound(db);
    if WellFormed(r) {
      if r.lookup == Empty {
        ProductOutcome(db, r);
      } else {
        LookupOutcome(db, r);
      }
    }
  }

  lemma LookupOutcome(db: Db, r: PriceResult)
    requires WellFormed(r) && r.lookup != Empty
    ensures var (db', outcome) := ProcessLookupResult(db, r);
            && outcome == (if TooLarge(r) && Writes(db, r) then DbError else Committed)
            && (outcome != Committed ==> db' == db)
            && (outcome == Committed ==> db'.processed == db.processed + {r.task.id})
  {
    assert r.task.id in db.processed ==> db.processed + {r.task.id} == db.processed;
  }

  lemma ProductOutcome(db: Db, r: PriceResult)
    requires Results.HistoryInv(db) && WellFormed(r) && r.lookup == Empty
    ensures var (db', outcome) := ProcessProductResult(db, r);
            && outcome == (if !Acceptable(db, r) then Invalid
                           else if TooLarge(r) && Writes(db, r) then DbError else Committed)
            && (outcome != Committed ==> db' == db)
            && (outcome == Committed ==> db'.processed == db.processed + {r.task.id})
  {
    if r.task.id in db.processed {
      assert db.processed + {r.task.id} == db.processed;
    } else {
      Results.NoHistoryConflict(db, r.task.id);
    }
  }

  // ─── What they leave ────────────────────────────────────────────────────────

  /** A first, storable result of a product. */
  predicate First(db: Db, r: PriceResult) {
    && WellFormed(r) && r.lookup == Empty && Acceptable(db, r)
    && r.task.id !in db.processed && !Orphan(db, r) && !TooLarge(r)
  }

  /** The first storable result of a force request. */
  predicate Answers(db: Db, r: PriceResult) {
    First(db, r) && r.task.id in db.force
  }

  /** The answer: the price now, or why there is none, for the chat that asked. */
  function Reply(db: Db, r: PriceResult): Event
    requires Answers(db, r)
  {
    var product := db.products[r.product.id];
    Notify(db.force[r.task.id].chat, Quiet,
           if r.success then CurrentPrice(product.name, product.url, r.price.kopecks, r.currency)
           else CheckFailed(product.name, product.url, r.error))
  }

  /** The processed mark, one history row and the newer time of a success; nothing else
      but subscriptions and events. */
  predicate Records(db: Db, r: PriceResult, db': Db)
    requires First(db, r)
  {
    var t, p := r.task.id, r.product.id;
    && db'.users == db.users && db'.force == db.force && db'.lookups == db.lookups
    && db'.processed == db.processed + {t}
    && if !r.success then db'.history == db.history && db'.products == db.products
       else
         var at := r.scrapedAt.value;
         && db'.history == db.history + [HistoryRow(p, r.price.kopecks, r.currency, at, t)]
         && db'.products == if db.products[p].latest.Some? && at < db.products[p].latest.value then db.products
                            else db.products[p := db.products[p].(latest := Some(at))]
  }

  lemma RecordedIs(db: Db, r: PriceResult)
    requires First(db, r)
    ensures var db1 := Recorded(db, r.product.id, r);
            Records(db, r, db1) && db1.subs == db.subs && db1.outbox == db.outbox
  {
  }

  /** After any run, the first storable result of a force request records its price, leaves
      every subscription alone and adds exactly one event: the answer, with the name and
      the link of the product, for the chat saved with the request. */
  lemma ForceIsAnswered(db: Db, r: PriceResult)
    requires Commands.Reached(db) && Answers(db, r)
    ensures var (db', outcome), key := ProcessPriceResult(db, r), ForceResultKey(r.task.id);
            && outcome == Committed && Records(db, r, db') && db'.subs == db.subs
            && key !in db.outbox && db'.outbox == db.outbox[key := Reply(db, r)]
  {
    Commands.ReachedIsSound(db);
    Results.NoHistoryConflict(db, r.task.id);
    RecordedIs(db, r);
    AnsweredIs(db, r);
  }

  lemma AnsweredIs(db: Db, r: PriceResult)
    requires Answers(db, r) && !HistoryHas(db.history, r.task.id) && ForceResultKey(r.task.id) !in db.outbox
    ensures var db1, key := Recorded(db, r.product.id, r), ForceResultKey(r.task.id);
            ProcessPriceResult(db, r) == (db1.(outbox := db1.outbox[key := Reply(db, r)]), Committed)
  {
  }

  /** A first result without a force request that is a failure, or older than the newest:
      recorded, and nobody is told anything. */
  lemma OthersAreRecorded(db: Db, r: PriceResult)
    requires Commands.Reached(db) && First(db, r) && r.task.id !in db.force && !Alerting.Timely(db, r)
    ensures var (db', outcome) := ProcessPriceResult(db, r);
            outcome == Committed && Records(db, r, db') && db'.subs == db.subs && db'.outbox == db.outbox
  {
    Commands.ReachedIsSound(db);
    Results.NoHistoryConflict(db, r.task.id);
    RecordedIs(db, r);
  }

  /** A timely one is recorded in the same way; what it does to subscriptions and alerts is
      the matter of `Alerting`. */
  lemma TimelyIsRecorded(db: Db, r: PriceResult)
    requires Commands.Reached(db) && Alerting.Timely(db, r)
    ensures First(db, r) && Records(db, r, ProcessPriceResult(db, r).0)
  {
    Commands.ReachedIsSound(db);
    Results.NoHistoryConflict(db, r.task.id);
    RecordedIs(db, r);
    Alerting.TimelyIsAlerted(db, r);
  }

  /** Every other product result changes nothing, or marks an orphan as processed. */
  lemma NothingElse(db: Db, r: PriceResult)
    requires Commands.Reached(db) && WellFormed(r) && r.lookup == Empty && !First(db, r)
    ensures var db' := ProcessPriceResult(db, r).0;
            db' == db || (Taken(db, r) && Orphan(db, r) && db' == db.(processed := db.processed + {r.task.id}))
  {
    Commands.ReachedIsSound(db);
    if r.task.id !in db.processed {
      Results.NoHistoryConflict(db, r.task.id);
    }
  }
}
