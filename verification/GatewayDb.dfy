/** The Gateway's tables, and every transaction on them as a function from the
    committed tables to the committed tables. A transaction that fails returns
    its input unchanged: the rollback.

    UUIDs are naturals, prices are kopecks, timestamps are integers. An outbox
    event is identified by its `event_key`; its lease columns live in `Outbox`. */
module GatewayDb {
  import opened Wrappers
  import Platform

  type Id = nat
  type Time = int
  type Chat = int
  type Price = int

  /** `alert_state`: '' | 'down' | 'up'. */
  datatype Direction = Quiet | Down | Up

  datatype Product = Product(name: string, url: string, version: nat, latest: Option<Time>)

  datatype Sub = Sub(user: Id, product: Id, min: Option<Price>, max: Option<Price>,
                     active: bool, paused: bool, alertState: Direction, alertVersion: nat)

  datatype LookupStatus = Pending | Done(name: string, price: Price) | Failed(error: string)

  datatype Lookup = Lookup(url: string, status: LookupStatus)

  datatype HistoryRow = HistoryRow(product: Id, price: Price, currency: string, scrapedAt: Time, task: Id)

  datatype ForceRequest = ForceRequest(product: Id, user: Id, chat: Chat)

  /** Notification wordings; only what is substituted into them is kept. */
  datatype Text =
    | CurrentPrice(name: string, url: string, price: Price, currency: string)
    | CheckFailed(name: string, url: string, error: string)
    | PriceFell(name: string, url: string, price: Price, currency: string, min: Price)
    | PriceRose(name: string, url: string, price: Price, currency: string, max: Price)

  /** `event_key`, unique in `gateway_outbox`. */
  datatype Key =
    | LookupKey(task: Id)
    | TrackKey(product: Id, version: nat)
    | ForceKey(task: Id)
    | ForceResultKey(task: Id)
    | AlertKey(sub: Id, alertVersion: nat)

  datatype Event =
    | LookupTask(task: Id, lookup: Id, url: string)
    | Snapshot(product: Id, url: string, version: nat, active: bool, intervalHours: int)
    | ForceCommand(task: Id, product: Id, url: string, chat: Chat)
    | Notify(target: Chat, direction: Direction, text: Text)

  datatype Db = Db(users: map<Id, Chat>, products: map<Id, Product>, subs: map<Id, Sub>,
                   history: seq<HistoryRow>, processed: set<Id>, force: map<Id, ForceRequest>,
                   lookups: map<Id, Lookup>, outbox: map<Key, Event>)

  /** A fresh schema. */
  const EMPTY: Db := Db(map[], map[], map[], [], {}, map[], map[], map[])

  /** How a store call ends. `Unchanged` is a nil error without a commit;
      `DbError` is any other database error, after which the caller may retry. */
  datatype Outcome = Committed | Unchanged | NotFound | Invalid | DbError

  /** `INSERT ... ON CONFLICT(event_key) DO NOTHING`. */
  function Enqueue(outbox: map<Key, Event>, key: Key, event: Event): (r: map<Key, Event>) {
    if key in outbox then outbox else outbox[key := event]
  }

  // ─── ORDER BY id ────────────────────────────────────────────────────────────

  /** Ascending, hence without repetitions. */
  predicate Ascending(ids: seq<Id>) {
    forall i, j | 0 <= i < j < |ids| :: ids[i] < ids[j]
  }

  predicate IsLeast(m: Id, s: set<Id>) {
    m in s && forall x | x in s :: m <= x
  }

  lemma {:induction false} LeastExists(s: set<Id>)
    requires s != {}
    ensures exists m :: IsLeast(m, s)
    decreases |s|
  {
    var m :| m in s;
    if s == {m} {
      assert IsLeast(m, s);
    } else {
      LeastExists(s - {m});
      var n :| IsLeast(n, s - {m});
      assert forall x | x in s && x != m :: x in s - {m};
      assert IsLeast(if n < m then n else m, s);
    }
  }

  ghost function Least(s: set<Id>): (m: Id)
    requires s != {}
    ensures IsLeast(m, s)
  {
    LeastExists(s);
    var m :| IsLeast(m, s);
    m
  }

  /** The rows of a query in the order of their ids. */
  ghost function Ordered(s: set<Id>): seq<Id>
    decreases |s|
  {
    if s == {} then [] else [Least(s)] + Ordered(s - {Least(s)})
  }

  lemma {:induction false} OrderedIs(s: set<Id>)
    ensures Ascending(Ordered(s)) && forall x :: x in Ordered(s) <==> x in s
    decreases |s|
  {
    if s != {} {
      var m, rest := Least(s), Ordered(s - {Least(s)});
      OrderedIs(s - {m});
      assert Ordered(s) == [m] + rest;
      forall j | 0 <= j < |rest| ensures m < rest[j] {
        assert rest[j] in rest;
      }
    }
  }

  lemma LeastFirst(s: set<Id>, m: Id)
    requires IsLeast(m, s)
    ensures Ordered(s) == [m] + Ordered(s - {m})
  {
    assert m == Least(s);
  }

  // ─── Monitoring ─────────────────────────────────────────────────────────────

  predicate WatchingRow(s: Sub, product: Id) {
    s.product == product && s.active && !s.paused
  }

  /** Does anyone watch this product? */
  predicate Watched(subs: map<Id, Sub>, product: Id) {
    exists s | s in subs :: WatchingRow(subs[s], product)
  }

  const INTERVAL_HOURS := 1

  /** Raise the product's version and enqueue the snapshot computed now. */
  function Bump(db: Db, p: Id): (r: Db)
    requires p in db.products
  {
    var product := db.products[p];
    var v := product.version + 1;
    db.(products := db.products[p := product.(version := v)],
        outbox := Enqueue(db.outbox, TrackKey(p, v),
                          Snapshot(p, product.url, v, Watched(db.subs, p), INTERVAL_HOURS)))
  }

  datatype Mutation = Pause | Resume | Thresholds(min: Price, max: Price) | Delete

  /** The row the mutation's UPDATE leaves behind. */
  function MutatedRow(m: Mutation, row: Sub): Sub {
    match m
    case Pause => row.(paused := true)
    case Resume => row.(paused := false)
    case Thresholds(min, max) =>
      if row.min == Some(min) && row.max == Some(max) then row
      else row.(min := Some(min), max := Some(max), alertState := Quiet, alertVersion := row.alertVersion + 1)
    case Delete => row.(active := false)
  }

  function MutateSubscription(db: Db, s: Id, user: Id, m: Mutation): (Db, Outcome) {
    if s !in db.subs || db.subs[s].user != user then (db, NotFound)
    else if m != Delete && !db.subs[s].active then (db, NotFound)
    else if db.subs[s].product !in db.products then (db, DbError)
    else if !db.subs[s].active then (db, Unchanged)
    else (Bump(db.(subs := db.subs[s := MutatedRow(m, db.subs[s])]), db.subs[s].product), Committed)
  }

  /** The row of `UNIQUE(user_id, product_id)`. */
  predicate OwnedBy(row: Sub, user: Id, product: Id) {
    row.user == user && row.product == product
  }

  ghost function FindSubscription(subs: map<Id, Sub>, user: Id, product: Id): (r: Option<Id>)
    ensures r.Some? ==> r.value in subs && OwnedBy(subs[r.value], user, product)
    ensures r.None? ==> forall s | s in subs :: !OwnedBy(subs[s], user, product)
  {
    if s :| s in subs && OwnedBy(subs[s], user, product) then Some(s) else None
  }

  /** Thresholds changed, or a deleted subscription restored. */
  predicate ResetsAlert(row: Sub, min: Price, max: Price) {
    !row.active || row.min != Some(min) || row.max != Some(max)
  }

  function RecreatedRow(row: Sub, min: Price, max: Price): Sub {
    var reset := ResetsAlert(row, min, max);
    row.(min := Some(min), max := Some(max), active := true, paused := false,
         alertState := if reset then Quiet else row.alertState,
         alertVersion := if reset then row.alertVersion + 1 else row.alertVersion)
  }

  function NewRow(user: Id, product: Id, min: Price, max: Price): Sub {
    Sub(user, product, Some(min), Some(max), true, false, Quiet, 0)
  }

  ghost function CreateSubscription(db: Db, user: Id, p: Id, min: Price, max: Price, newId: Id): (Db, Outcome) {
    if p !in db.products then (db, DbError)
    else match FindSubscription(db.subs, user, p)
      case None =>
        if user !in db.users then (db, DbError)
        else (Bump(db.(subs := db.subs[newId := NewRow(user, p, min, max)]), p), Committed)
      case Some(s) =>
        var row := db.subs[s];
        var db1 := db.(subs := db.subs[s := RecreatedRow(row, min, max)]);
        (if ResetsAlert(row, min, max) || row.paused then Bump(db1, p) else db1, Committed)
  }

  function QueueForce(db: Db, s: Id, user: Id, chat: Chat, task: Id): (Db, Outcome) {
    if s !in db.subs || db.subs[s].user != user || !db.subs[s].active
       || db.subs[s].product !in db.products || user !in db.users then (db, NotFound)
    else if db.users[user] != chat then (db, NotFound)
    else if task in db.force then (db, DbError)
    else
      var p := db.subs[s].product;
      (db.(force := db.force[task := ForceRequest(p, user, chat)],
           outbox := Enqueue(db.outbox, ForceKey(task), ForceCommand(task, p, db.products[p].url, chat))),
       Committed)
  }

  /** One `Bump` per product, in the given order. */
  function BumpAll(db: Db, ids: seq<Id>): Db
    requires forall p | p in ids :: p in db.products
    decreases |ids|
  {
    if ids == [] then db else BumpAll(Bump(db, ids[0]), ids[1..])
  }

  /** ReconcileMonitoring: every product, in order of id. */
  ghost function Reconciled(db: Db): Db {
    OrderedIs(db.products.Keys);
    BumpAll(db, Ordered(db.products.Keys))
  }

  // ─── Lookups, users, products ───────────────────────────────────────────────

  /** POST /lookup: only a recognised, normalized URL is stored. */
  function PostLookup(db: Db, rawURL: string, lookup: Id, task: Id): (Db, Outcome) {
    if !Platform.Detect(rawURL) then (db, Invalid)
    else match Platform.NormalizeWB(rawURL)
      case None => (db, Invalid)
      case Some(url) =>
        if lookup in db.lookups then (db, DbError)
        else
          (db.(lookups := db.lookups[lookup := Lookup(url, Pending)],
               outbox := Enqueue(db.outbox, LookupKey(task), LookupTask(task, lookup, url))), Committed)
  }

  function UpsertUser(db: Db, newId: Id, chat: Chat): (Db, Outcome) {
    if exists u | u in db.users :: db.users[u] == chat then (db, Unchanged)
    else (db.(users := db.users[newId := chat]), Committed)
  }

  /** The product with this URL. */
  ghost function FindProduct(products: map<Id, Product>, url: string): (r: Option<Id>)
    ensures r.Some? ==> r.value in products && products[r.value].url == url
    ensures r.None? ==> forall p | p in products :: products[p].url != url
  {
    if p :| p in products && products[p].url == url then Some(p) else None
  }

  /** EnsureProduct as `postSubscription` calls it: with a finished lookup. */
  ghost function EnsureProduct(db: Db, lookup: Id, candidate: Id): (Db, Outcome) {
    if lookup !in db.lookups || !db.lookups[lookup].status.Done? then (db, Invalid)
    else
      var url := db.lookups[lookup].url;
      var name := db.lookups[lookup].status.name;
      match FindProduct(db.products, url)
      case Some(p) => (db.(products := db.products[p := db.products[p].(name := name)]), Committed)
      case None => (db.(products := db.products[candidate := Product(name, url, 0, None)]), Committed)
  }

  // ─── Price results ──────────────────────────────────────────────────────────

  /** An identifier as it arrives in a message, after `uuid.Parse`. */
  datatype RawId = Empty | Malformed | Uuid(id: Id)

  /** A price as it arrives: NaN and the infinities are `NotFinite`. */
  datatype RawPrice = NotFinite | Finite(kopecks: Price)

  /** A price result; `scrapedAt` is `None` for the zero time. */
  datatype PriceResult = PriceResult(task: RawId, lookup: RawId, product: RawId, name: string,
                                     price: RawPrice, currency: string, scrapedAt: Option<Time>,
                                     success: bool, error: string, force: bool)

  predicate ValidPrice(price: RawPrice) {
    price.Finite? && price.kopecks >= 0
  }

  /** `NUMERIC(12,2)` holds at most ten digits before the point. */
  const NUMERIC_LIMIT: Price := 1_000_000_000_000

  function Classify(price: Price, min: Price, max: Price): Direction {
    if min > 0 && price < min then Down
    else if max > 0 && price > max then Up
    else Quiet
  }

  /** `COALESCE(threshold, 0)`. */
  function Coalesce(t: Option<Price>): Price {
    if t.Some? then t.value else 0
  }

  function ClassifyFor(s: Sub, price: Price): Direction {
    Classify(price, Coalesce(s.min), Coalesce(s.max))
  }

  function AlertText(p: Product, price: Price, currency: string, s: Sub, d: Direction): Text {
    if d == Down then PriceFell(p.name, p.url, price, currency, Coalesce(s.min))
    else PriceRose(p.name, p.url, price, currency, Coalesce(s.max))
  }

  function Transitioned(s: Sub, price: Price): Sub {
    var next := ClassifyFor(s, price);
    if next == s.alertState then s else s.(alertState := next, alertVersion := s.alertVersion + 1)
  }

  /** Does this row raise an alert at this price? */
  predicate Raises(s: Sub, price: Price) {
    ClassifyFor(s, price) != s.alertState && ClassifyFor(s, price) != Quiet
  }

  /** The rows the alert query selects. */
  function AlertRows(db: Db, p: Id): set<Id> {
    set s | s in db.subs && WatchingRow(db.subs[s], p) && db.subs[s].user in db.users
  }

  /** Every row in `ids` moved to the state the price puts it in. */
  function AlertSubs(subs: map<Id, Sub>, ids: set<Id>, price: Price): map<Id, Sub> {
    map s | s in subs :: if s in ids then Transitioned(subs[s], price) else subs[s]
  }

  function AlertEvent(db: Db, product: Product, s: Id, price: Price, currency: string): Event
    requires s in db.subs && db.subs[s].user in db.users
  {
    var row := db.subs[s];
    var next := ClassifyFor(row, price);
    Notify(db.users[row.user], next, AlertText(product, price, currency, row, next))
  }

  /** One event for every row in `ids` that raises an alert, keyed by its next version. */
  function AlertEvents(db: Db, product: Product, ids: set<Id>, price: Price, currency: string): map<Key, Event> {
    map s | s in ids && s in db.subs && db.subs[s].user in db.users && Raises(db.subs[s], price)
      :: AlertKey(s, db.subs[s].alertVersion + 1) := AlertEvent(db, product, s, price, currency)
  }

  function ProcessLookupResult(db: Db, r: PriceResult): (Db, Outcome)
    requires r.task.Uuid?
  {
    if !r.lookup.Uuid? then (db, Invalid)
    else if r.success && !ValidPrice(r.price) then (db, Invalid)
    else if r.task.id in db.processed then (db, Committed)
    else if r.success && r.price.kopecks >= NUMERIC_LIMIT && r.lookup.id in db.lookups then (db, DbError)
    else
      var db1 := db.(processed := db.processed + {r.task.id});
      if r.lookup.id !in db.lookups then (db1, Committed)
      else
        var status := if r.success then Done(r.name, r.price.kopecks) else Failed(r.error);
        (db1.(lookups := db.lookups[r.lookup.id := db.lookups[r.lookup.id].(status := status)]), Committed)
  }

  predicate Stale(product: Product, scrapedAt: Time) {
    product.latest.Some? && scrapedAt < product.latest.value
  }

  /** Processed mark, history row and `latest_result_at`, in the order of the statements. */
  function Recorded(db: Db, p: Id, r: PriceResult): Db
    requires r.task.Uuid? && p in db.products
    requires r.success ==> ValidPrice(r.price) && r.scrapedAt.Some?
  {
    var db1 := db.(processed := db.processed + {r.task.id});
    if !r.success then db1
    else
      var at := r.scrapedAt.value;
      var db2 := db1.(history := db.history + [HistoryRow(p, r.price.kopecks, r.currency, at, r.task.id)]);
      if Stale(db.products[p], at) then db2
      else db2.(products := db.products[p := db.products[p].(latest := Some(at))])
  }

  function ForceReply(product: Product, r: PriceResult, chat: Chat): Event
    requires r.success ==> ValidPrice(r.price)
  {
    Notify(chat, Quiet, if r.success then CurrentPrice(product.name, product.url, r.price.kopecks, r.currency)
                        else CheckFailed(product.name, product.url, r.error))
  }

  /** Alert rows moved and their events enqueued, after the result was recorded. */
  function Alerted(db: Db, product: Product, p: Id, price: Price, currency: string): Db {
    var ids := AlertRows(db, p);
    db.(subs := AlertSubs(db.subs, ids, price),
        outbox := AlertEvents(db, product, ids, price, currency) + db.outbox)
  }

  predicate HistoryHas(history: seq<HistoryRow>, task: Id) {
    exists i | 0 <= i < |history| :: history[i].task == task
  }

  function ProcessProductResult(db: Db, r: PriceResult): (Db, Outcome)
    requires r.task.Uuid?
  {
    if !r.product.Uuid? then (db, Invalid)
    else if r.success && !ValidPrice(r.price) then (db, Invalid)
    else if r.product.id !in db.products then (db, Invalid)
    else
      var t, p := r.task.id, r.product.id;
      if t !in db.force && r.force then (db.(processed := db.processed + {t}), Committed)
      else if t in db.force && db.force[t].product != p then (db, Invalid)
      else if t in db.processed then (db, Committed)
      else if r.success && r.scrapedAt.None? then (db, Invalid)
      else if r.success && (r.price.kopecks >= NUMERIC_LIMIT || HistoryHas(db.history, t)) then (db, DbError)
      else
        var product := db.products[p];
        var db1 := Recorded(db, p, r);
        if t in db.force then
          (db1.(outbox := Enqueue(db1.outbox, ForceResultKey(t), ForceReply(product, r, db.force[t].chat))), Committed)
        else if !r.success || Stale(product, r.scrapedAt.value) then (db1, Committed)
        else (Alerted(db1, product, p, r.price.kopecks, r.currency), Committed)
  }

  function ProcessPriceResult(db: Db, r: PriceResult): (Db, Outcome) {
    if !r.task.Uuid? then (db, Invalid)
    else if r.lookup != Empty && r.product != Empty then (db, Invalid)
    else if r.lookup != Empty then ProcessLookupResult(db, r)
    else ProcessProductResult(db, r)
  }
}
