/** The Gateway store: its tables as fields, its transactions as methods that
    work on a copy of the tables and put the copy in place on commit. */
module GatewayStore {
  import opened Wrappers
  import opened GatewayDb

  function Ids(ids: seq<Id>): set<Id> {
    set s | s in ids
  }

  /** The tables after the loop has handled exactly the rows in `done`. */
  function AlertedIn(db: Db, product: Product, done: set<Id>, price: Price, currency: string): Db {
    db.(subs := AlertSubs(db.subs, done, price), outbox := AlertEvents(db, product, done, price, currency) + db.outbox)
  }

  lemma NobodyAlerted(db: Db, product: Product, price: Price, currency: string)
    ensures AlertedIn(db, product, {}, price, currency) == db
  {
    assert AlertSubs(db.subs, {}, price) == db.subs;
    assert AlertEvents(db, product, {}, price, currency) == map[];
  }

  /** One more row in the closed form of the alert loop, and its event. */
  lemma OneMoreRow(subs: map<Id, Sub>, done: set<Id>, s: Id, price: Price)
    requires s in subs && s !in done
    ensures AlertSubs(subs, done, price)[s] == subs[s]
    ensures AlertSubs(subs, done + {s}, price) == AlertSubs(subs, done, price)[s := Transitioned(subs[s], price)]
  {
  }

  lemma OneMoreEvent(db: Db, product: Product, done: set<Id>, s: Id, price: Price, currency: string)
    requires s in db.subs && db.subs[s].user in db.users && s !in done
    ensures var before := AlertEvents(db, product, done, price, currency) + db.outbox;
            AlertEvents(db, product, done + {s}, price, currency) + db.outbox ==
            if Raises(db.subs[s], price)
            then Enqueue(before, AlertKey(s, db.subs[s].alertVersion + 1), AlertEvent(db, product, s, price, currency))
            else before
  {
    if Raises(db.subs[s], price) {
      OneRaised(db, product, done, s, price, currency);
    } else {
      NoneRaised(db, product, done, s, price, currency);
    }
  }

  lemma OneRaised(db: Db, product: Product, done: set<Id>, s: Id, price: Price, currency: string)
    requires s in db.subs && db.subs[s].user in db.users && s !in done && Raises(db.subs[s], price)
    ensures var key := AlertKey(s, db.subs[s].alertVersion + 1);
            key !in AlertEvents(db, product, done, price, currency)
            && AlertEvents(db, product, done + {s}, price, currency) ==
               AlertEvents(db, product, done, price, currency)[key := AlertEvent(db, product, s, price, currency)]
  {
  }

  lemma NoneRaised(db: Db, product: Product, done: set<Id>, s: Id, price: Price, currency: string)
    requires s in db.subs && !Raises(db.subs[s], price)
    ensures AlertEvents(db, product, done + {s}, price, currency) == AlertEvents(db, product, done, price, currency)
  {
  }

  /** One iteration of the loop. */
  function OneAlerted(tx: Db, product: Product, s: Id, price: Price, currency: string): Db
    requires s in tx.subs && tx.subs[s].user in tx.users
  {
    tx.(subs := tx.subs[s := Transitioned(tx.subs[s], price)],
        outbox := if Raises(tx.subs[s], price)
                  then Enqueue(tx.outbox, AlertKey(s, tx.subs[s].alertVersion + 1),
                               AlertEvent(tx, product, s, price, currency))
                  else tx.outbox)
  }

  /** What the row and its event were before the loop is what the iteration reads. */
  lemma ReadsOriginal(db: Db, tx: Db, subs': map<Id, Sub>, outbox': map<Key, Event>,
                      product: Product, s: Id, price: Price, currency: string)
    requires s in db.subs && db.subs[s].user in db.users && tx.users == db.users
    requires s in tx.subs && tx.subs[s] == db.subs[s] && subs' == tx.subs[s := Transitioned(db.subs[s], price)]
    requires outbox' == if Raises(db.subs[s], price)
                        then Enqueue(tx.outbox, AlertKey(s, db.subs[s].alertVersion + 1),
                                     AlertEvent(db, product, s, price, currency))
                        else tx.outbox
    ensures OneAlerted(tx, product, s, price, currency) == tx.(subs := subs', outbox := outbox')
  {
  }

  lemma OneMoreStep(db: Db, product: Product, done: set<Id>, s: Id, price: Price, currency: string)
    requires s in db.subs && db.subs[s].user in db.users && s !in done
    ensures var tx := AlertedIn(db, product, done, price, currency);
            s in tx.subs && tx.subs[s].user in tx.users
            && OneAlerted(tx, product, s, price, currency) == AlertedIn(db, product, done + {s}, price, currency)
  {
    OneMoreRow(db.subs, done, s, price);
    OneMoreEvent(db, product, done, s, price, currency);
    ReadsOriginal(db, AlertedIn(db, product, done, price, currency), AlertSubs(db.subs, done + {s}, price),
                  AlertEvents(db, product, done + {s}, price, currency) + db.outbox, product, s, price, currency);
  }

  class Store {
    var users: map<Id, Chat>
    var products: map<Id, Product>
    var subs: map<Id, Sub>
    var history: seq<HistoryRow>
    var processed: set<Id>
    var force: map<Id, ForceRequest>
    var lookups: map<Id, Lookup>
    var outbox: map<Key, Event>

    function Tables(): Db
      reads this
    {
      Db(users, products, subs, history, processed, force, lookups, outbox)
    }

    constructor ()
      ensures Tables() == EMPTY
    {
      users, products, subs, history := map[], map[], map[], [];
      processed, force, lookups, outbox := {}, map[], map[], map[];
    }

    method Commit(tx: Db)
      modifies this
      ensures Tables() == tx
    {
      users, products, subs, history := tx.users, tx.products, tx.subs, tx.history;
      processed, force, lookups, outbox := tx.processed, tx.force, tx.lookups, tx.outbox;
    }

    /** The snapshot of a product at the given version, inside a transaction. */
    static method TakeSnapshot(tx: Db, p: Id, version: nat, url: string) returns (tx': Db)
      ensures tx' == tx.(outbox := Enqueue(tx.outbox, TrackKey(p, version),
                                           Snapshot(p, url, version, Watched(tx.subs, p), INTERVAL_HOURS)))
    {
      var active := false;
      if s :| s in tx.subs && WatchingRow(tx.subs[s], p) {
        active := true;
      }
      var event := Snapshot(p, url, version, active, INTERVAL_HOURS);
      tx' := tx.(outbox := Enqueue(tx.outbox, TrackKey(p, version), event));
    }

    method MutateSubscription(s: Id, user: Id, m: Mutation) returns (outcome: Outcome)
      modifies this
      ensures (Tables(), outcome) == GatewayDb.MutateSubscription(old(Tables()), s, user, m)
    {
      var tx := Tables();
      if s !in tx.subs || tx.subs[s].user != user {
        return NotFound;
      }
      if m != Delete && !tx.subs[s].active {
        return NotFound;
      }
      var p := tx.subs[s].product;
      if p !in tx.products {
        return DbError;
      }
      var version, url := tx.products[p].version, tx.products[p].url;
      match m {
        case Pause => tx := tx.(subs := tx.subs[s := tx.subs[s].(paused := true)]);
        case Resume => tx := tx.(subs := tx.subs[s := tx.subs[s].(paused := false)]);
        case Thresholds(min, max) =>
          var row := tx.subs[s];
          if row.min != Some(min) || row.max != Some(max) {
            row := row.(min := Some(min), max := Some(max), alertState := Quiet, alertVersion := row.alertVersion + 1);
          }
          tx := tx.(subs := tx.subs[s := row]);
        case Delete =>
          if !tx.subs[s].active {
            return Unchanged;
          }
          tx := tx.(subs := tx.subs[s := tx.subs[s].(active := false)]);
      }
      version := version + 1;
      tx := tx.(products := tx.products[p := tx.products[p].(version := version)]);
      tx := TakeSnapshot(tx, p, version, url);
      Commit(tx);
      outcome := Committed;
    }

    method CreateSubscription(user: Id, p: Id, min: Price, max: Price, newId: Id) returns (outcome: Outcome)
      modifies this
      requires forall s, t | s in subs && t in subs && OwnedBy(subs[t], subs[s].user, subs[s].product) :: s == t
      ensures (Tables(), outcome) == GatewayDb.CreateSubscription(old(Tables()), user, p, min, max, newId)
    {
      var tx := Tables();
      if p !in tx.products {
        return DbError;
      }
      var changed := false;
      if s :| s in tx.subs && OwnedBy(tx.subs[s], user, p) {
        var row := tx.subs[s];
        var reset := !row.active || row.min != Some(min) || row.max != Some(max);
        changed := reset || row.paused;
        row := row.(min := Some(min), max := Some(max), active := true, paused := false);
        if reset {
          row := row.(alertState := Quiet, alertVersion := row.alertVersion + 1);
        }
        assert FindSubscription(tx.subs, user, p) == Some(s) && row == RecreatedRow(tx.subs[s], min, max);
        tx := tx.(subs := tx.subs[s := row]);
      } else {
        assert FindSubscription(tx.subs, user, p) == None;
        if user !in tx.users {
          return DbError;
        }
        tx := tx.(subs := tx.subs[newId := Sub(user, p, Some(min), Some(max), true, false, Quiet, 0)]);
        changed := true;
      }
      if changed {
        tx := BumpProduct(tx, p);
      }
      Commit(tx);
      outcome := Committed;
    }

    method QueueForce(s: Id, user: Id, chat: Chat, task: Id) returns (outcome: Outcome)
      modifies this
      ensures (Tables(), outcome) == GatewayDb.QueueForce(old(Tables()), s, user, chat, task)
    {
      var tx := Tables();
      if s !in tx.subs || tx.subs[s].user != user || !tx.subs[s].active || tx.subs[s].product !in tx.products
         || user !in tx.users
      {
        return NotFound;
      }
      var p, ownerChat := tx.subs[s].product, tx.users[user];
      if ownerChat != chat {
        return NotFound;
      }
      if task in tx.force {
        return DbError;
      }
      tx := tx.(force := tx.force[task := ForceRequest(p, user, chat)]);
      var request := ForceCommand(task, p, tx.products[p].url, chat);
      tx := tx.(outbox := Enqueue(tx.outbox, ForceKey(task), request));
      Commit(tx);
      outcome := Committed;
    }

    /** A query's rows in ascending order of id. */
    static method InOrder(s: set<Id>) returns (ids: seq<Id>)
      ensures ids == Ordered(s)
    {
      ids := [];
      var rest := s;
      while rest != {}
        invariant ids + Ordered(rest) == Ordered(s)
        decreases |rest|
      {
        LeastExists(rest);
        var m :| m in rest && IsLeast(m, rest);
        LeastFirst(rest, m);
        assert ids + Ordered(rest) == ids + [m] + Ordered(rest - {m});
        ids, rest := ids + [m], rest - {m};
      }
    }

    static method BumpProduct(tx: Db, p: Id) returns (tx': Db)
      requires p in tx.products
      ensures tx' == Bump(tx, p)
    {
      var version := tx.products[p].version + 1;
      tx' := tx.(products := tx.products[p := tx.products[p].(version := version)]);
      tx' := TakeSnapshot(tx', p, version, tx.products[p].url);
    }

    static method BumpEach(tx: Db, all: seq<Id>) returns (tx': Db)
      requires forall p | p in all :: p in tx.products
      ensures tx' == BumpAll(tx, all)
    {
      tx' := tx;
      for i := 0 to |all|
        invariant tx'.products.Keys == tx.products.Keys
        invariant forall p | p in all[i..] :: p in tx'.products
        invariant BumpAll(tx', all[i..]) == BumpAll(tx, all)
      {
        var rest := all[i..];
        assert rest[0] == all[i] && rest[1..] == all[i + 1..];
        assert forall p | p in all[i + 1..] :: p in rest;
        tx' := BumpProduct(tx', all[i]);
      }
    }

    method ReconcileMonitoring() returns (outcome: Outcome)
      modifies this
      ensures outcome == Committed && Tables() == Reconciled(old(Tables()))
    {
      var tx := Tables();
      var all := InOrder(tx.products.Keys);
      OrderedIs(tx.products.Keys);
      tx := BumpEach(tx, all);
      Commit(tx);
      outcome := Committed;
    }

    /** `INSERT INTO processed_price_results ... ON CONFLICT DO NOTHING`. */
    static method MarkProcessed(tx: Db, t: Id) returns (tx': Db, inserted: bool)
      ensures tx' == tx.(processed := tx.processed + {t}) && inserted == (t !in tx.processed)
    {
      inserted := t !in tx.processed;
      tx' := tx.(processed := tx.processed + {t});
    }

    method ProcessLookup(r: PriceResult) returns (outcome: Outcome)
      requires r.task.Uuid?
      modifies this
      ensures (Tables(), outcome) == ProcessLookupResult(old(Tables()), r)
    {
      if !r.lookup.Uuid? {
        return Invalid;
      }
      if r.success && !ValidPrice(r.price) {
        return Invalid;
      }
      var tx, inserted := MarkProcessed(Tables(), r.task.id);
      if !inserted {
        assert tx == Tables();
        Commit(tx);
        return Committed;
      }
      if r.lookup.id in tx.lookups {
        var row := tx.lookups[r.lookup.id];
        if r.success {
          if r.price.kopecks >= NUMERIC_LIMIT {
            return DbError;
          }
          row := row.(status := Done(r.name, r.price.kopecks));
        } else {
          row := row.(status := Failed(r.error));
        }
        tx := tx.(lookups := tx.lookups[r.lookup.id := row]);
      }
      Commit(tx);
      outcome := Committed;
    }

    /** One iteration of the alert loop. */
    static method AlertRow(tx: Db, product: Product, s: Id, price: Price, currency: string) returns (tx': Db)
      requires s in tx.subs && tx.subs[s].user in tx.users
      ensures tx' == OneAlerted(tx, product, s, price, currency)
    {
      tx' := tx;
      var sub := tx.subs[s];
      var next := ClassifyFor(sub, price);
      if next == sub.alertState {
        assert tx.subs[s := sub] == tx.subs;
        return;
      }
      sub := sub.(alertState := next, alertVersion := sub.alertVersion + 1);
      tx' := tx'.(subs := tx'.subs[s := sub]);
      if next == Quiet {
        return;
      }
      var task := Notify(tx.users[sub.user], next, AlertText(product, price, currency, sub, next));
      tx' := tx'.(outbox := Enqueue(tx'.outbox, AlertKey(s, sub.alertVersion), task));
    }

    /** The alert loop: the selected rows in order of id. */
    static method RaiseAlerts(db: Db, product: Product, ids: seq<Id>, price: Price, currency: string) returns (tx: Db)
      requires Ascending(ids) && forall s | s in ids :: s in db.subs && db.subs[s].user in db.users
      ensures tx == AlertedIn(db, product, Ids(ids), price, currency)
    {
      tx := db;
      NobodyAlerted(db, product, price, currency);
      for i := 0 to |ids|
        invariant tx == AlertedIn(db, product, Ids(ids[..i]), price, currency)
      {
        var s := ids[i];
        assert s !in Ids(ids[..i]) && Ids(ids[..i + 1]) == Ids(ids[..i]) + {s};
        OneMoreStep(db, product, Ids(ids[..i]), s, price, currency);
        tx := AlertRow(tx, product, s, price, currency);
      }
      assert ids[..|ids|] == ids;
    }

    method ProcessProduct(r: PriceResult) returns (outcome: Outcome)
      requires r.task.Uuid?
      modifies this
      ensures (Tables(), outcome) == ProcessProductResult(old(Tables()), r)
    {
      if !r.product.Uuid? {
        return Invalid;
      }
      if r.success && !ValidPrice(r.price) {
        return Invalid;
      }
      var tx := Tables();
      var t, p := r.task.id, r.product.id;
      if p !in tx.products {
        return Invalid;
      }
      var product := tx.products[p];
      var forceChat: Option<Chat> := None;
      var inserted: bool;
      if t !in tx.force {
        if r.force {
          tx, inserted := MarkProcessed(tx, t);
          Commit(tx);
          return Committed;
        }
      } else if tx.force[t].product != p {
        return Invalid;
      } else {
        forceChat := Some(tx.force[t].chat);
      }
      tx, inserted := MarkProcessed(tx, t);
      if !inserted {
        assert tx == Tables();
        Commit(tx);
        return Committed;
      }
      if r.success && r.scrapedAt.None? {
        return Invalid;
      }
      if r.success {
        if r.price.kopecks >= NUMERIC_LIMIT || HistoryHas(tx.history, t) {
          return DbError;
        }
        tx := tx.(history := tx.history + [HistoryRow(p, r.price.kopecks, r.currency, r.scrapedAt.value, t)]);
      }
      var stale := r.success && product.latest.Some? && r.scrapedAt.value < product.latest.value;
      if r.success && !stale {
        tx := tx.(products := tx.products[p := product.(latest := r.scrapedAt)]);
      }
      assert tx == Recorded(old(Tables()), p, r);
      if forceChat.Some? {
        tx := tx.(outbox := Enqueue(tx.outbox, ForceResultKey(t), ForceReply(product, r, forceChat.value)));
        Commit(tx);
        return Committed;
      }
      if !r.success {
        Commit(tx);
        return Committed;
      }
      if stale {
        Commit(tx);
        return Committed;
      }
      tx := AlertWatchers(tx, product, p, r.price.kopecks, r.currency);
      Commit(tx);
      outcome := Committed;
    }

    static method AlertWatchers(db: Db, product: Product, p: Id, price: Price, currency: string) returns (tx: Db)
      ensures tx == Alerted(db, product, p, price, currency)
    {
      var rows := AlertRows(db, p);
      var ids := InOrder(rows);
      OrderedIs(rows);
      assert Ids(ids) == rows;
      tx := RaiseAlerts(db, product, ids, price, currency);
    }

    method ProcessPriceResult(r: PriceResult) returns (outcome: Outcome)
      modifies this
      ensures (Tables(), outcome) == GatewayDb.ProcessPriceResult(old(Tables()), r)
    {
      if !r.task.Uuid? {
        return Invalid;
      }
      if r.lookup != Empty && r.product != Empty {
        return Invalid;
      }
      if r.lookup != Empty {
        outcome := ProcessLookup(r);
      } else {
        outcome := ProcessProduct(r);
      }
    }
  }
}
