/** Runs of Gateway transactions, and what every one of them keeps:
    the newest snapshot tells the truth, event keys are always new, payloads never change. */
module Gateway {
  import opened Wrappers
  import opened GatewayDb
  import Platform

  datatype Op =
    | PostingLookup(rawURL: string, lookup: Id, task: Id)
    | UpsertingUser(user: Id, chat: Chat)
    | EnsuringProduct(lookup: Id, candidate: Id)
    | Creating(user: Id, product: Id, min: Price, max: Price, newId: Id)
    | Mutating(sub: Id, user: Id, mutation: Mutation)
    | QueueingForce(sub: Id, user: Id, chat: Chat, task: Id)
    | Reconciling(ids: seq<Id>)
    | Processing(result: PriceResult)

  /** What the environment supplies: ids generated for new rows are new, and the
      reconciliation's row list names existing products in order of id. */
  predicate Admissible(db: Db, op: Op) {
    match op
    case UpsertingUser(user, _) => user !in db.users
    case EnsuringProduct(_, candidate) => candidate !in db.products
    case Creating(_, _, _, _, newId) => newId !in db.subs
    case QueueingForce(_, _, _, task) => task !in db.force && task !in db.processed && LookupKey(task) !in db.outbox
    case PostingLookup(_, _, task) => task !in db.force && task !in db.processed && LookupKey(task) !in db.outbox
    case Reconciling(ids) => Ascending(ids) && forall p | p in ids :: p in db.products
    case _ => true
  }

  ghost function Apply(db: Db, op: Op): (Db, Outcome)
    requires Admissible(db, op)
  {
    match op
    case PostingLookup(rawURL, lookup, task) => PostLookup(db, rawURL, lookup, task)
    case UpsertingUser(user, chat) => UpsertUser(db, user, chat)
    case EnsuringProduct(lookup, candidate) => EnsureProduct(db, lookup, candidate)
    case Creating(user, p, min, max, newId) => CreateSubscription(db, user, p, min, max, newId)
    case Mutating(s, user, m) => MutateSubscription(db, s, user, m)
    case QueueingForce(s, user, chat, task) => QueueForce(db, s, user, chat, task)
    case Reconciling(ids) => (BumpAll(db, ids), Committed)
    case Processing(r) => ProcessPriceResult(db, r)
  }

  ghost predicate AdmissibleRun(db: Db, ops: seq<Op>)
    decreases |ops|
  {
    ops == [] || (Admissible(db, ops[0]) && AdmissibleRun(Apply(db, ops[0]).0, ops[1..]))
  }

  ghost function Run(db: Db, ops: seq<Op>): Db
    requires AdmissibleRun(db, ops)
    decreases |ops|
  {
    if ops == [] then db else Run(Apply(db, ops[0]).0, ops[1..])
  }

  // ─── The newest snapshot ────────────────────────────────────────────────────

  /** Snapshot events are numbered 1..version without gaps and describe their product. */
  ghost predicate SnapshotsNumbered(db: Db) {
    && (forall p: Id, v: nat | TrackKey(p, v) in db.outbox ::
          && p in db.products && 1 <= v <= db.products[p].version
          && var e := db.outbox[TrackKey(p, v)];
             e.Snapshot? && e.product == p && e.version == v && e.url == db.products[p].url
             && e.intervalHours == 1)
    && (forall p: Id, v: nat | p in db.products && 1 <= v <= db.products[p].version :: TrackKey(p, v) in db.outbox)
    && (forall s | s in db.subs :: db.subs[s].product in db.products)
  }

  /** The monitoring state the newest snapshot of `p` announces. */
  ghost predicate Announced(db: Db, p: Id)
    requires p in db.products
  {
    var v := db.products[p].version;
    v > 0 && TrackKey(p, v) in db.outbox && db.outbox[TrackKey(p, v)].Snapshot? && db.outbox[TrackKey(p, v)].active
  }

  ghost predicate TruthfulExcept(db: Db, exempt: set<Id>) {
    && SnapshotsNumbered(db)
    && forall p | p in db.products && p !in exempt :: Announced(db, p) == Watched(db.subs, p)
  }

  /** The newest snapshot of every product is active iff somebody watches it. */
  ghost predicate Truthful(db: Db) {
    TruthfulExcept(db, {})
  }

  lemma BumpTells(db: Db, p: Id)
    requires p in db.products && TruthfulExcept(db, {p})
    ensures Truthful(Bump(db, p))
    ensures TrackKey(p, db.products[p].version + 1) !in db.outbox
  {
    var db' := Bump(db, p);
    assert db'.subs == db.subs;
    forall q | q in db'.products && q != p ensures Announced(db', q) == Watched(db'.subs, q) {
      assert Announced(db', q) == Announced(db, q);
    }
  }

  lemma {:induction false} BumpAllTells(db: Db, ids: seq<Id>)
    requires Truthful(db) && forall p | p in ids :: p in db.products
    ensures Truthful(BumpAll(db, ids))
    decreases |ids|
  {
    if ids != [] {
      BumpTells(db, ids[0]);
      BumpAllTells(Bump(db, ids[0]), ids[1..]);
    }
  }

  /** Changing one row of product `p` can only falsify the snapshot of `p`. */
  lemma RowChange(db: Db, s: Id, row: Sub)
    requires Truthful(db) && row.product in db.products
    requires s in db.subs ==> db.subs[s].product == row.product
    ensures TruthfulExcept(db.(subs := db.subs[s := row]), {row.product})
  {
    var db' := db.(subs := db.subs[s := row]);
    forall q | q in db.products && q != row.product ensures Announced(db', q) == Watched(db'.subs, q) {
      assert Announced(db', q) == Announced(db, q);
      OtherWatchers(db.subs, s, row, q);
    }
  }

  lemma OtherWatchers(subs: map<Id, Sub>, s: Id, row: Sub, q: Id)
    requires row.product != q && (s in subs ==> subs[s].product == row.product)
    ensures Watched(subs[s := row], q) == Watched(subs, q)
  {
    if Watched(subs, q) {
      var w :| w in subs && WatchingRow(subs[w], q);
      assert WatchingRow(subs[s := row][w], q);
    }
  }

  lemma MutateTells(db: Db, s: Id, user: Id, m: Mutation)
    requires Truthful(db)
    ensures Truthful(MutateSubscription(db, s, user, m).0)
  {
    if MutateSubscription(db, s, user, m).1 == Committed {
      var row := MutatedRow(m, db.subs[s]);
      RowChange(db, s, row);
      BumpTells(db.(subs := db.subs[s := row]), row.product);
    }
  }

  lemma CreateTells(db: Db, user: Id, p: Id, min: Price, max: Price, newId: Id)
    requires Truthful(db) && newId !in db.subs
    ensures Truthful(CreateSubscription(db, user, p, min, max, newId).0)
  {
    if CreateSubscription(db, user, p, min, max, newId).1 == Committed {
      match FindSubscription(db.subs, user, p)
      case None =>
        RowChange(db, newId, NewRow(user, p, min, max));
        BumpTells(db.(subs := db.subs[newId := NewRow(user, p, min, max)]), p);
      case Some(s) =>
        var row := RecreatedRow(db.subs[s], min, max);
        RowChange(db, s, row);
        if ResetsAlert(db.subs[s], min, max) || db.subs[s].paused {
          BumpTells(db.(subs := db.subs[s := row]), p);
        } else {
          assert row == db.subs[s];
          assert db.subs[s := row] == db.subs;
        }
    }
  }

  /** Creating a subscription writes one row, and bumps the product or not. */
  lemma CreateTables(db: Db, user: Id, p: Id, min: Price, max: Price, newId: Id) returns (subs: map<Id, Sub>)
    ensures var db' := CreateSubscription(db, user, p, min, max, newId).0;
            db' == db.(subs := subs) || (p in db.products && db' == Bump(db.(subs := subs), p))
  {
    subs := CreateSubscription(db, user, p, min, max, newId).0.subs;
  }

  ghost predicate SameRow(row: Sub, row': Sub) {
    row'.(alertState := row.alertState, alertVersion := row.alertVersion) == row
  }

  ghost predicate SameProducts(products: map<Id, Product>, products': map<Id, Product>) {
    && products.Keys <= products'.Keys
    && (forall p | p in products :: products'[p].version == products[p].version && products'[p].url == products[p].url)
    && forall p | p in products' && p !in products :: products'[p].version == 0
  }

  ghost predicate SameTrackEvents(outbox: map<Key, Event>, outbox': map<Key, Event>) {
    forall k: Key | k.TrackKey? :: (k in outbox' <==> k in outbox) && (k in outbox ==> outbox'[k] == outbox[k])
  }

  ghost predicate SameSubs(subs: map<Id, Sub>, subs': map<Id, Sub>) {
    && subs'.Keys == subs.Keys
    && forall s | s in subs :: SameRow(subs[s], subs'[s])
  }

  /** Alert columns, names, new products and events other than snapshots do not matter. */
  ghost predicate SameMonitoring(db: Db, db': Db) {
    && SameSubs(db.subs, db'.subs)
    && SameProducts(db.products, db'.products)
    && SameTrackEvents(db.outbox, db'.outbox)
  }

  lemma UnrelatedTells(db: Db, db': Db)
    requires Truthful(db) && SameMonitoring(db, db')
    ensures Truthful(db')
  {
    forall p | p in db'.products ensures Announced(db', p) == Watched(db'.subs, p) {
      SameWatchers(db.subs, db'.subs, p);
      if p in db.products {
        assert Announced(db', p) == Announced(db, p);
      }
    }
  }

  lemma SameWatchers(subs: map<Id, Sub>, subs': map<Id, Sub>, p: Id)
    requires subs'.Keys == subs.Keys
    requires forall s | s in subs :: WatchingRow(subs'[s], p) == WatchingRow(subs[s], p)
    ensures Watched(subs', p) == Watched(subs, p)
  {
    if Watched(subs, p) {
      var w :| w in subs && WatchingRow(subs[w], p);
      assert WatchingRow(subs'[w], p);
    }
    if Watched(subs', p) {
      var w :| w in subs' && WatchingRow(subs'[w], p);
      assert WatchingRow(subs[w], p);
    }
  }

  lemma AlertedIsUnrelated(db: Db, product: Product, p: Id, price: Price, currency: string)
    ensures SameMonitoring(db, Alerted(db, product, p, price, currency))
  {
  }

  lemma RecordedIsUnrelated(db: Db, p: Id, r: PriceResult)
    requires r.task.Uuid? && p in db.products
    requires r.success ==> ValidPrice(r.price) && r.scrapedAt.Some?
    ensures SameMonitoring(db, Recorded(db, p, r))
    ensures Recorded(db, p, r).subs == db.subs && Recorded(db, p, r).outbox == db.outbox
  {
    RecordedProducts(db, p, r);
  }

  /** Recording a result changes at most the product's `latest_result_at`. */
  lemma RecordedProducts(db: Db, p: Id, r: PriceResult)
    requires r.task.Uuid? && p in db.products
    requires r.success ==> ValidPrice(r.price) && r.scrapedAt.Some?
    ensures Recorded(db, p, r).subs == db.subs && Recorded(db, p, r).outbox == db.outbox
    ensures SameProducts(db.products, Recorded(db, p, r).products)
  {
  }

  /** Rollbacks, duplicates, cancelled force checks and lookup results. */
  ghost predicate LeavesTables(db: Db, db': Db) {
    && db'.users == db.users && db'.products == db.products && db'.subs == db.subs && db'.history == db.history
    && db'.force == db.force && db'.outbox == db.outbox && db.processed <= db'.processed
  }

  /** A result recorded for a product: answered, kept as history, or raising alerts. */
  ghost predicate ProductRecorded(db: Db, r: PriceResult, db': Db) {
    && r.task.Uuid? && r.product.Uuid? && r.product.id in db.products && r.task.id !in db.processed
    && (r.success ==> ValidPrice(r.price) && r.scrapedAt.Some?)
    && var db1 := Recorded(db, r.product.id, r);
    || db' == db1
    || (r.success && db' == Alerted(db1, db.products[r.product.id], r.product.id, r.price.kopecks, r.currency))
    || (r.task.id in db.force
        && db' == db1.(outbox := Enqueue(db1.outbox, ForceResultKey(r.task.id),
                                         ForceReply(db.products[r.product.id], r, db.force[r.task.id].chat))))
  }

  lemma ResultCases(db: Db, r: PriceResult)
    ensures LeavesTables(db, ProcessPriceResult(db, r).0) || ProductRecorded(db, r, ProcessPriceResult(db, r).0)
  {
    if r.task.Uuid? {
      LookupResultCase(db, r);
      ProductResultCases(db, r);
    }
  }

  lemma LookupResultCase(db: Db, r: PriceResult)
    requires r.task.Uuid?
    ensures LeavesTables(db, ProcessLookupResult(db, r).0)
  {
  }

  lemma ProductResultCases(db: Db, r: PriceResult)
    requires r.task.Uuid?
    ensures LeavesTables(db, ProcessProductResult(db, r).0) || ProductRecorded(db, r, ProcessProductResult(db, r).0)
  {
  }

  lemma ResultIsUnrelated(db: Db, r: PriceResult)
    ensures SameMonitoring(db, ProcessPriceResult(db, r).0)
  {
    var db' := ProcessPriceResult(db, r).0;
    if db'.outbox != db.outbox || db'.products != db.products || db'.subs != db.subs {
      var p := r.product.id;
      var db1 := Recorded(db, p, r);
      RecordedIsUnrelated(db, p, r);
      if r.task.id !in db.force && r.success {
        AlertedIsUnrelated(db1, db.products[p], p, r.price.kopecks, r.currency);
      }
    }
  }

  lemma LookupIsUnrelated(db: Db, rawURL: string, lookup: Id, task: Id)
    ensures SameMonitoring(db, PostLookup(db, rawURL, lookup, task).0)
  {
    LookupTables(db, rawURL, lookup, task);
  }

  /** A lookup request adds a pending lookup and its command, or nothing. */
  lemma LookupTables(db: Db, rawURL: string, lookup: Id, task: Id)
    ensures var db' := PostLookup(db, rawURL, lookup, task).0;
            db' == db.(lookups := db'.lookups, outbox := db'.outbox)
            && (db'.outbox == db.outbox
                || exists e: Event :: db'.outbox == Enqueue(db.outbox, LookupKey(task), e))
  {
    var db' := PostLookup(db, rawURL, lookup, task).0;
    if db'.outbox != db.outbox {
      var e := LookupTask(task, lookup, Platform.NormalizeWB(rawURL).value);
      assert db'.outbox == Enqueue(db.outbox, LookupKey(task), e);
    }
  }

  lemma ProductIsUnrelated(db: Db, lookup: Id, candidate: Id)
    requires candidate !in db.products
    ensures SameMonitoring(db, EnsureProduct(db, lookup, candidate).0)
  {
  }

  lemma ForceIsUnrelated(db: Db, s: Id, user: Id, chat: Chat, task: Id)
    ensures SameMonitoring(db, QueueForce(db, s, user, chat, task).0)
  {
  }

  /** Every transaction keeps the newest snapshot truthful, whether or not it emits one. */
  lemma OpTells(db: Db, op: Op)
    requires Admissible(db, op) && Truthful(db)
    ensures Truthful(Apply(db, op).0)
  {
    match op
    case Creating(user, p, min, max, newId) => CreateTells(db, user, p, min, max, newId);
    case Mutating(s, user, m) => MutateTells(db, s, user, m);
    case Reconciling(ids) => BumpAllTells(db, ids);
    case Processing(r) =>
      ResultIsUnrelated(db, r);
      UnrelatedTells(db, Apply(db, op).0);
    case UpsertingUser(user, chat) =>
      UnrelatedTells(db, Apply(db, op).0);
    case PostingLookup(rawURL, lookup, task) =>
      LookupIsUnrelated(db, rawURL, lookup, task);
      UnrelatedTells(db, Apply(db, op).0);
    case EnsuringProduct(lookup, candidate) =>
      ProductIsUnrelated(db, lookup, candidate);
      UnrelatedTells(db, Apply(db, op).0);
    case QueueingForce(s, user, chat, task) =>
      ForceIsUnrelated(db, s, user, chat, task);
      UnrelatedTells(db, Apply(db, op).0);
  }

  /** In every state a fresh database can reach, the snapshot at `monitor_version`
      is active iff some subscription is active and not paused. */
  lemma {:induction false} RunTells(db: Db, ops: seq<Op>)
    requires Truthful(db) && AdmissibleRun(db, ops)
    ensures Truthful(Run(db, ops))
    decreases |ops|
  {
    if ops != [] {
      OpTells(db, ops[0]);
      RunTells(Apply(db, ops[0]).0, ops[1..]);
    }
  }

  // ─── Versions ───────────────────────────────────────────────────────────────

  /** Versions move up by at most one, and new products start at 0. */
  ghost predicate VersionsStep(products: map<Id, Product>, products': map<Id, Product>) {
    && (forall p | p in products :: p in products'
                                    && products[p].version <= products'[p].version <= products[p].version + 1)
    && forall p | p in products' && p !in products :: products'[p].version == 0
  }

  lemma {:induction false} BumpAllVersions(db: Db, ids: seq<Id>)
    requires Ascending(ids) && forall p | p in ids :: p in db.products
    ensures BumpAll(db, ids).products.Keys == db.products.Keys
    ensures forall p | p in db.products ::
              BumpAll(db, ids).products[p].version == db.products[p].version + if p in ids then 1 else 0
    decreases |ids|
  {
    if ids != [] {
      BumpAllVersions(Bump(db, ids[0]), ids[1..]);
      assert ids[0] !in ids[1..];
    }
  }

  lemma MutateVersions(db: Db, s: Id, user: Id, m: Mutation)
    ensures VersionsStep(db.products, MutateSubscription(db, s, user, m).0.products)
  {
  }

  lemma CreateVersions(db: Db, user: Id, p: Id, min: Price, max: Price, newId: Id)
    ensures VersionsStep(db.products, CreateSubscription(db, user, p, min, max, newId).0.products)
  {
  }

  lemma SameProductsStep(db: Db, db': Db)
    requires SameMonitoring(db, db')
    ensures VersionsStep(db.products, db'.products)
  {
  }

  lemma OpVersions(db: Db, op: Op)
    requires Admissible(db, op)
    ensures VersionsStep(db.products, Apply(db, op).0.products)
  {
    var db' := Apply(db, op).0;
    match op
    case Creating(user, p, min, max, newId) => CreateVersions(db, user, p, min, max, newId);
    case Mutating(s, user, m) => MutateVersions(db, s, user, m);
    case Reconciling(ids) => BumpAllVersions(db, ids);
    case UpsertingUser(_, _) => assert db'.products == db.products;
    case Processing(r) =>
      ResultIsUnrelated(db, r);
      SameProductsStep(db, db');
    case PostingLookup(rawURL, lookup, task) =>
      LookupIsUnrelated(db, rawURL, lookup, task);
      SameProductsStep(db, db');
    case EnsuringProduct(lookup, candidate) =>
      ProductIsUnrelated(db, lookup, candidate);
      SameProductsStep(db, db');
    case QueueingForce(s, user, chat, task) =>
      ForceIsUnrelated(db, s, user, chat, task);
      SameProductsStep(db, db');
  }

  // ─── Event keys ─────────────────────────────────────────────────────────────

  /** Payloads are never rewritten and events never removed. */
  ghost predicate OutboxExtends(db: Db, db': Db) {
    forall k | k in db.outbox :: k in db'.outbox && db'.outbox[k] == db.outbox[k]
  }

  lemma {:induction false} BumpAllExtends(db: Db, ids: seq<Id>)
    requires forall p | p in ids :: p in db.products
    ensures OutboxExtends(db, BumpAll(db, ids))
    decreases |ids|
  {
    if ids != [] {
      BumpAllExtends(Bump(db, ids[0]), ids[1..]);
    }
  }

  lemma AlertedExtends(db: Db, product: Product, p: Id, price: Price, currency: string)
    ensures OutboxExtends(db, Alerted(db, product, p, price, currency))
  {
  }

  lemma RecordedSameOutbox(db: Db, p: Id, r: PriceResult)
    requires r.task.Uuid? && p in db.products
    requires r.success ==> ValidPrice(r.price) && r.scrapedAt.Some?
    ensures Recorded(db, p, r).outbox == db.outbox
  {
  }

  lemma RecordedExtends(db: Db, r: PriceResult, db': Db)
    requires ProductRecorded(db, r, db')
    ensures OutboxExtends(db, db')
  {
    var p := r.product.id;
    RecordedSameOutbox(db, p, r);
    if r.success {
      AlertedExtends(Recorded(db, p, r), db.products[p], p, r.price.kopecks, r.currency);
    }
  }

  lemma ResultExtends(db: Db, r: PriceResult)
    ensures OutboxExtends(db, ProcessPriceResult(db, r).0)
  {
    ResultCases(db, r);
    if !LeavesTables(db, ProcessPriceResult(db, r).0) {
      RecordedExtends(db, r, ProcessPriceResult(db, r).0);
    }
  }

  lemma IntakeExtends(db: Db, op: Op)
    requires Admissible(db, op) && !op.Processing? && !op.Reconciling?
    ensures OutboxExtends(db, Apply(db, op).0)
  {
  }

  lemma OpExtends(db: Db, op: Op)
    requires Admissible(db, op)
    ensures OutboxExtends(db, Apply(db, op).0)
  {
    match op
    case Reconciling(ids) => BumpAllExtends(db, ids);
    case Processing(r) => ResultExtends(db, r);
    case _ => IntakeExtends(db, op);
  }
}
