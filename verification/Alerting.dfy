/** Which alerts a price result raises: exactly those that are due, with the right
    words for the right chat, and none is swallowed by an older event key. */
module Alerting {
  import opened Wrappers
  import opened GatewayDb
  import opened Gateway
  import AlertLog
  import Results

  /** Below a set minimum, or else above a set maximum. */
  predicate Below(row: Sub, price: Price) {
    row.min.Some? && 0 < row.min.value && price < row.min.value
  }

  predicate Above(row: Sub, price: Price) {
    row.max.Some? && 0 < row.max.value && row.max.value < price && !Below(row, price)
  }

  function Zone(row: Sub, price: Price): Direction {
    if Below(row, price) then Down else if Above(row, price) then Up else Quiet
  }

  /** Out of range on a side that is not the one announced last. */
  predicate Crosses(row: Sub, price: Price) {
    (Below(row, price) && row.alertState != Down) || (Above(row, price) && row.alertState != Up)
  }

  /** The message: that side, its threshold and the price, for the subscriber's chat. */
  function Message(product: Product, row: Sub, chat: Chat, price: Price, currency: string): Event
    requires Crosses(row, price)
  {
    if Below(row, price) then Notify(chat, Down, PriceFell(product.name, product.url, price, currency, row.min.value))
    else Notify(chat, Up, PriceRose(product.name, product.url, price, currency, row.max.value))
  }

  lemma ZoneIsClass(row: Sub, price: Price)
    ensures ClassifyFor(row, price) == Zone(row, price) && (Raises(row, price) <==> Crosses(row, price))
  {
  }

  /** The event keys that moving the rows adds. */
  lemma AlertedKeys(db: Db, product: Product, p: Id, price: Price, currency: string, s: Id, v: nat)
    requires AlertKey(s, v) !in db.outbox
    ensures var db' := Alerted(db, product, p, price, currency);
            && (AlertKey(s, v) in db'.outbox <==>
                  s in AlertRows(db, p) && v == db.subs[s].alertVersion + 1 && Crosses(db.subs[s], price))
            && (AlertKey(s, v) in db'.outbox ==>
                  db'.outbox[AlertKey(s, v)]
                    == Message(product, db.subs[s], db.users[db.subs[s].user], price, currency))
  {
    var events := AlertEvents(db, product, AlertRows(db, p), price, currency);
    if s in db.subs {
      ZoneIsClass(db.subs[s], price);
    }
    assert AlertKey(s, v) in events <==>
        s in AlertRows(db, p) && v == db.subs[s].alertVersion + 1 && Raises(db.subs[s], price);
  }

  lemma AlertedZones(db: Db, product: Product, p: Id, price: Price, currency: string)
    ensures var db' := Alerted(db, product, p, price, currency);
            && db'.subs.Keys == db.subs.Keys
            && (forall s | s in db.subs ::
                  db'.subs[s] == if Follows(db, s, p) then InZone(db.subs[s], price) else db.subs[s])
            && forall k | k in db'.outbox && k !in db.outbox :: k.AlertKey? && Follows(db, k.sub, p)
  {
    var db' := Alerted(db, product, p, price, currency);
    forall s | s in db.subs
      ensures db'.subs[s] == if Follows(db, s, p) then InZone(db.subs[s], price) else db.subs[s]
    {
      ZoneIsClass(db.subs[s], price);
    }
  }

  /** A first, successful, periodic result that is not older than the newest. */
  predicate Timely(db: Db, r: PriceResult) {
    && r.task.Uuid? && r.task.id !in db.processed && r.task.id !in db.force && !r.force
    && r.lookup == Empty && r.product.Uuid? && r.product.id in db.products
    && r.success && r.price.Finite? && 0 <= r.price.kopecks < 10_000_000_000 * 100 && r.scrapedAt.Some?
    && var latest := db.products[r.product.id].latest; latest.None? || latest.value <= r.scrapedAt.value
  }

  lemma TimelyIsAlerted(db: Db, r: PriceResult)
    requires Timely(db, r) && !HistoryHas(db.history, r.task.id)
    ensures var p := r.product.id;
            ProcessPriceResult(db, r) ==
            (Alerted(Recorded(db, p, r), db.products[p], p, r.price.kopecks, r.currency), Committed)
  {
  }

  lemma LookupAlertsNobody(db: Db, r: PriceResult)
    requires r.task.Uuid?
    ensures ProcessLookupResult(db, r).0.outbox == db.outbox
  {
  }

  lemma RecordedSameOutbox(db: Db, p: Id, r: PriceResult)
    requires r.task.Uuid? && p in db.products
    requires r.success ==> ValidPrice(r.price) && r.scrapedAt.Some?
    ensures Recorded(db, p, r).outbox == db.outbox
  {
  }

  lemma ProductAlertsNobody(db: Db, r: PriceResult, s: Id, v: nat)
    requires r.task.Uuid? && r.lookup == Empty && !Timely(db, r)
    ensures AlertKey(s, v) in ProcessProductResult(db, r).0.outbox <==> AlertKey(s, v) in db.outbox
  {
    if ProcessProductResult(db, r).0.outbox != db.outbox {
      RecordedSameOutbox(db, r.product.id, r);
    }
  }

  lemma OthersAlertNobody(db: Db, r: PriceResult, s: Id, v: nat)
    requires !Timely(db, r)
    ensures AlertKey(s, v) in ProcessPriceResult(db, r).0.outbox <==> AlertKey(s, v) in db.outbox
  {
    if r.task.Uuid? && !(r.lookup != Empty && r.product != Empty) {
      if r.lookup != Empty {
        LookupAlertsNobody(db, r);
      } else {
        ProductAlertsNobody(db, r, s, v);
      }
    }
  }

  lemma RecordedRows(db: Db, r: PriceResult, p: Id)
    requires Timely(db, r) && p == r.product.id
    ensures var db1 := Recorded(db, p, r);
            db1.subs == db.subs && db1.users == db.users && db1.outbox == db.outbox
              && AlertRows(db1, p) == AlertRows(db, p)
  {
    assert AlertRows(Recorded(db, p, r), p) == AlertRows(db, p);
  }

  /** An active subscription to the product that is not paused, of a known user. */
  predicate Follows(db: Db, s: Id, p: Id) {
    && s in db.subs && db.subs[s].product == p && db.subs[s].active && !db.subs[s].paused
    && db.subs[s].user in db.users
  }

  /** This result raises this alert. */
  predicate Raised(db: Db, r: PriceResult, s: Id, v: nat) {
    && Timely(db, r) && Follows(db, s, r.product.id)
    && v == db.subs[s].alertVersion + 1 && Crosses(db.subs[s], r.price.kopecks)
  }

  lemma AlertsExact(db: Db, r: PriceResult, s: Id, v: nat)
    requires !(r.task.Uuid? && r.task.id !in db.processed && HistoryHas(db.history, r.task.id))
    requires AlertKey(s, v) !in db.outbox
    ensures var db' := ProcessPriceResult(db, r).0;
            && (AlertKey(s, v) in db'.outbox <==> Raised(db, r, s, v))
            && (AlertKey(s, v) in db'.outbox ==>
                  db'.outbox[AlertKey(s, v)] ==
                  Message(db.products[r.product.id], db.subs[s], db.users[db.subs[s].user], r.price.kopecks,
                          r.currency))
  {
    if Timely(db, r) {
      var p := r.product.id;
      TimelyIsAlerted(db, r);
      RecordedRows(db, r, p);
      AlertedKeys(Recorded(db, p, r), db.products[p], p, r.price.kopecks, r.currency, s, v);
    } else {
      OthersAlertNobody(db, r, s, v);
    }
  }

  /** What runs keep for the next result. */
  lemma RunKeepsKeys(ops: seq<Op>)
    requires AdmissibleRun(EMPTY, ops)
    ensures AlertLog.KeysBehind(Run(EMPTY, ops)) && Results.HistoryInv(Run(EMPTY, ops))
  {
    AlertLog.RunKeepsKeysBehind(ops);
    Results.RunKeepsHistory(EMPTY, ops);
  }

  /** After any run: a result adds an alert event if and only if it is timely and its
      price leaves the range of a watching subscription on a side not announced last.
      The event is the right message, and `ON CONFLICT DO NOTHING` never discards it. */
  lemma AlertsAreDeserved(ops: seq<Op>, db: Db, r: PriceResult, s: Id, v: nat)
    requires AdmissibleRun(EMPTY, ops) && db == Run(EMPTY, ops)
    ensures var db', key := ProcessPriceResult(db, r).0, AlertKey(s, v);
            && (key in db'.outbox && key !in db.outbox <==> Raised(db, r, s, v))
            && (Raised(db, r, s, v) ==>
                  db'.outbox[key] ==
                  Message(db.products[r.product.id], db.subs[s], db.users[db.subs[s].user], r.price.kopecks,
                          r.currency))
  {
    RunKeepsKeys(ops);
    NoConflict(db, r);
    if AlertKey(s, v) !in db.outbox {
      AlertsExact(db, r, s, v);
    }
  }

  lemma NoConflict(db: Db, r: PriceResult)
    requires Results.HistoryInv(db)
    ensures !(r.task.Uuid? && r.task.id !in db.processed && HistoryHas(db.history, r.task.id))
  {
    if r.task.Uuid? && r.task.id !in db.processed {
      Results.NoHistoryConflict(db, r.task.id);
    }
  }

  /** The row after a price: in the zone of the price, one version on if that is new. */
  function InZone(row: Sub, price: Price): Sub {
    if Zone(row, price) == row.alertState then row
    else row.(alertState := Zone(row, price), alertVersion := row.alertVersion + 1)
  }

  /** And a timely result leaves every following subscription in the zone of its price,
      every other one as it was, and adds no events but alerts. */
  lemma ZonesFollow(ops: seq<Op>, db: Db, r: PriceResult)
    requires AdmissibleRun(EMPTY, ops) && db == Run(EMPTY, ops) && Timely(db, r)
    ensures var db', p := ProcessPriceResult(db, r).0, r.product.id;
            && db'.subs.Keys == db.subs.Keys
            && (forall s | s in db.subs ::
                  db'.subs[s] == if Follows(db, s, p) then InZone(db.subs[s], r.price.kopecks) else db.subs[s])
            && forall k | k in db'.outbox && k !in db.outbox :: k.AlertKey? && Follows(db, k.sub, p)
  {
    RunKeepsKeys(ops);
    NoConflict(db, r);
    var p := r.product.id;
    TimelyIsAlerted(db, r);
    RecordedRows(db, r, p);
    AlertedZones(Recorded(db, p, r), db.products[p], p, r.price.kopecks, r.currency);
  }

  /** After any run the next snapshot key of every product is free as well. */
  lemma NextSnapshotKeyIsFree(ops: seq<Op>, p: Id)
    requires AdmissibleRun(EMPTY, ops) && p in Run(EMPTY, ops).products
    ensures TrackKey(p, Run(EMPTY, ops).products[p].version + 1) !in Run(EMPTY, ops).outbox
  {
    RunTells(EMPTY, ops);
  }
}
