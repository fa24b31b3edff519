/** Two more facts every Gateway transaction keeps: product URLs are canonical,
    unique and permanent, and a processed force check has exactly its one reply. */
module Catalog {
  import opened Wrappers
  import opened GatewayDb
  import opened Gateway
  import Platform

  // ─── What only grows ────────────────────────────────────────────────────────

  /** Products keep their URL; events, force requests and processed marks are never removed. */
  ghost predicate Grows(db: Db, db': Db) {
    && OutboxExtends(db, db')
    && (forall p | p in db.products :: p in db'.products && db'.products[p].url == db.products[p].url)
    && (forall t | t in db.force :: t in db'.force && db'.force[t] == db.force[t])
    && db.processed <= db'.processed
  }

  lemma {:induction false} BumpAllGrows(db: Db, ids: seq<Id>)
    requires forall p | p in ids :: p in db.products
    ensures Grows(db, BumpAll(db, ids))
    decreases |ids|
  {
    if ids != [] {
      BumpAllGrows(Bump(db, ids[0]), ids[1..]);
    }
  }

  lemma CreateGrows(db: Db, user: Id, p: Id, min: Price, max: Price, newId: Id)
    ensures Grows(db, CreateSubscription(db, user, p, min, max, newId).0)
  {
    var subs := CreateTables(db, user, p, min, max, newId);
    if p in db.products {
      BumpGrows(db.(subs := subs), p);
    }
  }

  lemma BumpGrows(db: Db, p: Id)
    requires p in db.products
    ensures Grows(db, Bump(db, p))
  {
  }

  lemma RecordedTables(db: Db, p: Id, r: PriceResult)
    requires r.task.Uuid? && p in db.products
    requires r.success ==> ValidPrice(r.price) && r.scrapedAt.Some?
    ensures Recorded(db, p, r).force == db.force && Recorded(db, p, r).products.Keys == db.products.Keys
  {
  }

  /** The tables a result cannot change. */
  lemma ResultTables(db: Db, r: PriceResult)
    ensures ProcessPriceResult(db, r).0.force == db.force
    ensures ProcessPriceResult(db, r).0.products.Keys == db.products.Keys
  {
    ResultCases(db, r);
    if !LeavesTables(db, ProcessPriceResult(db, r).0) {
      RecordedTables(db, r.product.id, r);
    }
  }

  /** A result that changes anything leaves its mark. */
  lemma ResultMark(db: Db, r: PriceResult)
    ensures var db' := ProcessPriceResult(db, r).0;
            db' == db || (r.task.Uuid? && db'.processed == db.processed + {r.task.id})
  {
  }

  lemma ResultGrows(db: Db, r: PriceResult)
    ensures Grows(db, ProcessPriceResult(db, r).0)
  {
    var db' := ProcessPriceResult(db, r).0;
    ResultTables(db, r);
    ResultMark(db, r);
    assert OutboxExtends(db, db') by {
      OpExtends(db, Processing(r));
    }
    assert SameProducts(db.products, db'.products) by {
      ResultIsUnrelated(db, r);
    }
  }

  lemma IntakeGrows(db: Db, op: Op)
    requires Admissible(db, op)
    requires op.PostingLookup? || op.UpsertingUser? || op.EnsuringProduct? || op.QueueingForce?
    ensures Grows(db, Apply(db, op).0)
  {
    match op
    case PostingLookup(rawURL, lookup, task) => LookupTables(db, rawURL, lookup, task);
    case UpsertingUser(_, _) =>
    case EnsuringProduct(lookup, candidate) => ProductGrows(db, lookup, candidate);
    case QueueingForce(s, user, chat, task) => QueueForceGrows(db, s, user, chat, task);
  }

  lemma ProductGrows(db: Db, lookup: Id, candidate: Id)
    requires candidate !in db.products
    ensures Grows(db, EnsureProduct(db, lookup, candidate).0)
  {
  }

  lemma QueueForceGrows(db: Db, s: Id, user: Id, chat: Chat, task: Id)
    ensures Grows(db, QueueForce(db, s, user, chat, task).0)
  {
  }

  lemma OpGrows(db: Db, op: Op)
    requires Admissible(db, op)
    ensures Grows(db, Apply(db, op).0)
  {
    match op
    case Creating(user, p, min, max, newId) => CreateGrows(db, user, p, min, max, newId);
    case Reconciling(ids) => BumpAllGrows(db, ids);
    case Processing(r) => ResultGrows(db, r);
    case Mutating(_, _, _) =>
    case _ => IntakeGrows(db, op);
  }

  // ─── URLs ───────────────────────────────────────────────────────────────────

  /** Stored URLs are canonical, and no two products share one. */
  ghost predicate UrlsOk(db: Db) {
    && (forall p | p in db.products :: Platform.Canonical(db.products[p].url))
    && (forall l | l in db.lookups :: Platform.Canonical(db.lookups[l].url))
    && forall p, q | p in db.products && q in db.products && db.products[p].url == db.products[q].url :: p == q
  }

  ghost predicate SameUrls(db: Db, db': Db) {
    && db'.products.Keys == db.products.Keys && db'.lookups.Keys == db.lookups.Keys
    && (forall p | p in db.products :: db'.products[p].url == db.products[p].url)
    && forall l | l in db.lookups :: db'.lookups[l].url == db.lookups[l].url
  }

  lemma {:induction false} BumpAllSameUrls(db: Db, ids: seq<Id>)
    requires forall p | p in ids :: p in db.products
    ensures SameUrls(db, BumpAll(db, ids))
    decreases |ids|
  {
    if ids != [] {
      BumpAllSameUrls(Bump(db, ids[0]), ids[1..]);
    }
  }

  lemma MutateSameUrls(db: Db, s: Id, user: Id, m: Mutation)
    ensures SameUrls(db, MutateSubscription(db, s, user, m).0)
  {
  }

  lemma CreateSameUrls(db: Db, user: Id, p: Id, min: Price, max: Price, newId: Id)
    ensures SameUrls(db, CreateSubscription(db, user, p, min, max, newId).0)
  {
    var subs := CreateTables(db, user, p, min, max, newId);
  }

  lemma ResultSameUrls(db: Db, r: PriceResult)
    ensures SameUrls(db, ProcessPriceResult(db, r).0)
  {
    var db' := ProcessPriceResult(db, r).0;
    ResultTables(db, r);
    assert SameProducts(db.products, db'.products) by {
      ResultIsUnrelated(db, r);
    }
    ResultLookups(db, r);
  }

  lemma ResultLookups(db: Db, r: PriceResult)
    ensures var lookups' := ProcessPriceResult(db, r).0.lookups;
            lookups' == db.lookups
            || (r.lookup.Uuid? && r.lookup.id in db.lookups
                && exists status :: lookups' == db.lookups[r.lookup.id := db.lookups[r.lookup.id].(status := status)])
  {
    if r.task.Uuid? {
      SettledLookups(db, r);
      ProductLookups(db, r);
    }
  }

  lemma SettledLookups(db: Db, r: PriceResult)
    requires r.task.Uuid?
    ensures var lookups' := ProcessLookupResult(db, r).0.lookups;
            lookups' == db.lookups
            || (r.lookup.Uuid? && r.lookup.id in db.lookups
                && exists status :: lookups' == db.lookups[r.lookup.id := db.lookups[r.lookup.id].(status := status)])
  {
    if ProcessLookupResult(db, r).0.lookups != db.lookups {
      var status := if r.success then Done(r.name, r.price.kopecks) else Failed(r.error);
      assert ProcessLookupResult(db, r).0.lookups
             == db.lookups[r.lookup.id := db.lookups[r.lookup.id].(status := status)];
    }
  }

  lemma ProductLookups(db: Db, r: PriceResult)
    requires r.task.Uuid?
    ensures ProcessProductResult(db, r).0.lookups == db.lookups
  {
  }

  lemma LookupUrls(db: Db, rawURL: string, lookup: Id, task: Id)
    requires UrlsOk(db)
    ensures UrlsOk(PostLookup(db, rawURL, lookup, task).0)
  {
    Platform.NormalizedIsCanonical(rawURL);
    match Platform.NormalizeWB(rawURL)
    case None =>
    case Some(url) =>
  }

  lemma ProductUrls(db: Db, lookup: Id, candidate: Id)
    requires UrlsOk(db) && candidate !in db.products
    ensures UrlsOk(EnsureProduct(db, lookup, candidate).0)
  {
    if EnsureProduct(db, lookup, candidate).1 == Committed {
      var l := db.lookups[lookup];
      match FindProduct(db.products, l.url)
      case Some(p) => ProductRenamed(db, p, l.status.name);
      case None => ProductAdded(db, candidate, l.status.name, l.url);
    }
  }

  lemma ProductRenamed(db: Db, p: Id, name: string)
    requires UrlsOk(db) && p in db.products
    ensures UrlsOk(db.(products := db.products[p := db.products[p].(name := name)]))
  {
  }

  lemma ProductAdded(db: Db, candidate: Id, name: string, url: string)
    requires UrlsOk(db) && Platform.Canonical(url)
    requires candidate !in db.products && forall p | p in db.products :: db.products[p].url != url
    ensures UrlsOk(db.(products := db.products[candidate := Product(name, url, 0, None)]))
  {
  }

  lemma OpUrls(db: Db, op: Op)
    requires UrlsOk(db) && Admissible(db, op)
    ensures UrlsOk(Apply(db, op).0)
  {
    match op
    case PostingLookup(rawURL, lookup, task) => LookupUrls(db, rawURL, lookup, task);
    case EnsuringProduct(lookup, candidate) => ProductUrls(db, lookup, candidate);
    case Creating(user, p, min, max, newId) => CreateSameUrls(db, user, p, min, max, newId);
    case Reconciling(ids) => BumpAllSameUrls(db, ids);
    case Processing(r) => ResultSameUrls(db, r);
    case Mutating(s, user, m) => MutateSameUrls(db, s, user, m);
    case UpsertingUser(_, _) =>
    case QueueingForce(_, _, _, _) =>
  }

  // ─── Force requests and their replies ───────────────────────────────────────

  /** The command enqueued with the request. */
  function CommandOf(db: Db, t: Id): Event
    requires t in db.force && db.force[t].product in db.products
  {
    ForceCommand(t, db.force[t].product, db.products[db.force[t].product].url, db.force[t].chat)
  }

  /** A reply exists exactly when the request has been processed, and goes to the saved chat. */
  ghost predicate RequestOk(db: Db, t: Id)
    requires t in db.force
  {
    && db.force[t].product in db.products
    && ForceKey(t) in db.outbox && db.outbox[ForceKey(t)] == CommandOf(db, t)
    && (t in db.processed <==> ForceResultKey(t) in db.outbox)
    && (t in db.processed ==>
          db.outbox[ForceResultKey(t)].Notify? && db.outbox[ForceResultKey(t)].target == db.force[t].chat)
  }

  ghost predicate ForceOk(db: Db) {
    && (forall t | t in db.force :: RequestOk(db, t))
    && forall t: Id | ForceKey(t) in db.outbox || ForceResultKey(t) in db.outbox :: t in db.force
  }

  ghost predicate IsForceKey(k: Key) {
    k.ForceKey? || k.ForceResultKey?
  }

  ghost predicate SameForce(db: Db, db': Db) {
    && db'.force == db.force && db'.processed == db.processed
    && (forall k | IsForceKey(k) ::
          (k in db'.outbox <==> k in db.outbox) && (k in db.outbox ==> db'.outbox[k] == db.outbox[k]))
    && forall p | p in db.products :: p in db'.products && db'.products[p].url == db.products[p].url
  }

  lemma SameForceOk(db: Db, db': Db)
    requires ForceOk(db) && SameForce(db, db')
    ensures ForceOk(db')
  {
    forall t | t in db'.force ensures RequestOk(db', t) {
      assert RequestOk(db, t) && IsForceKey(ForceKey(t)) && IsForceKey(ForceResultKey(t));
    }
    forall t: Id | ForceKey(t) in db'.outbox || ForceResultKey(t) in db'.outbox ensures t in db'.force {
      assert IsForceKey(ForceKey(t)) && IsForceKey(ForceResultKey(t));
    }
  }

  lemma {:induction false} BumpAllSameForce(db: Db, ids: seq<Id>)
    requires forall p | p in ids :: p in db.products
    ensures SameForce(db, BumpAll(db, ids))
    decreases |ids|
  {
    if ids != [] {
      BumpAllSameForce(Bump(db, ids[0]), ids[1..]);
    }
  }

  lemma CreateSameForce(db: Db, user: Id, p: Id, min: Price, max: Price, newId: Id)
    ensures SameForce(db, CreateSubscription(db, user, p, min, max, newId).0)
  {
    var subs := CreateTables(db, user, p, min, max, newId);
    if p in db.products {
      BumpSameForce(db.(subs := subs), p);
    }
  }

  lemma BumpSameForce(db: Db, p: Id)
    requires p in db.products
    ensures SameForce(db, Bump(db, p))
  {
  }

  lemma LookupSameForce(db: Db, rawURL: string, lookup: Id, task: Id)
    ensures SameForce(db, PostLookup(db, rawURL, lookup, task).0)
  {
  }

  lemma ProductSameForce(db: Db, lookup: Id, candidate: Id)
    requires candidate !in db.products
    ensures SameForce(db, EnsureProduct(db, lookup, candidate).0)
  {
  }

  lemma QueueForceOk(db: Db, s: Id, user: Id, chat: Chat, task: Id)
    requires ForceOk(db) && task !in db.processed
    ensures ForceOk(QueueForce(db, s, user, chat, task).0)
  {
    var db' := QueueForce(db, s, user, chat, task).0;
    if db' != db {
      assert ForceKey(task) !in db.outbox && ForceResultKey(task) !in db.outbox;
      forall t | t in db'.force ensures RequestOk(db', t) {
        if t != task {
          assert RequestOk(db, t);
        }
      }
    }
  }

  /** An unprocessed force task's id on an acceptable lookup result: the Gateway would
      mark the task processed and answer nobody. */
  predicate Mislabelled(db: Db, r: PriceResult) {
    && r.task.Uuid? && r.task.id in db.force && r.task.id !in db.processed
    && r.lookup.Uuid? && r.product == Empty
    && (r.success ==> ValidPrice(r.price) && (r.price.kopecks < NUMERIC_LIMIT || r.lookup.id !in db.lookups))
  }

  /** Everything except a reply: a processed mark for some task without a request. */
  lemma MarkedForceOk(db: Db, db': Db, t: Id)
    requires ForceOk(db) && t !in db.force
    requires db'.force == db.force && db'.processed == db.processed + {t}
    requires SameForce(db.(processed := db'.processed), db')
    ensures ForceOk(db')
  {
    forall x | x in db'.force ensures RequestOk(db', x) {
      assert RequestOk(db, x) && IsForceKey(ForceKey(x)) && IsForceKey(ForceResultKey(x));
    }
    forall x: Id | ForceKey(x) in db'.outbox || ForceResultKey(x) in db'.outbox ensures x in db'.force {
      assert IsForceKey(ForceKey(x)) && IsForceKey(ForceResultKey(x));
    }
  }

  lemma RepliedForceOk(db: Db, r: PriceResult, p: Id)
    requires ForceOk(db) && r.task.Uuid? && p in db.products && r.task.id in db.force && r.task.id !in db.processed
    requires r.success ==> ValidPrice(r.price) && r.scrapedAt.Some?
    ensures var t, db1 := r.task.id, Recorded(db, p, r);
            ForceOk(db1.(outbox := Enqueue(db1.outbox, ForceResultKey(t),
                                           ForceReply(db.products[p], r, db.force[t].chat))))
  {
    var t, db1 := r.task.id, Recorded(db, p, r);
    var db' := db1.(outbox := Enqueue(db1.outbox, ForceResultKey(t), ForceReply(db.products[p], r, db.force[t].chat)));
    assert RequestOk(db, t);
    forall x | x in db'.force ensures RequestOk(db', x) {
      assert RequestOk(db, x);
    }
  }

  /** Results of force tasks that come as lookup results, and are not acceptable. */
  lemma OtherLookupsIgnored(db: Db, r: PriceResult)
    requires r.task.Uuid? && r.task.id in db.force && r.lookup != Empty && !Mislabelled(db, r)
    ensures ProcessPriceResult(db, r).0 == db
  {
    assert r.task.id in db.processed ==> db.processed + {r.task.id} == db.processed;
  }

  lemma MislabelledLosesReply(db: Db, r: PriceResult)
    requires ForceOk(db) && Mislabelled(db, r)
    ensures !ForceOk(ProcessPriceResult(db, r).0)
  {
    var db' := ProcessPriceResult(db, r).0;
    assert RequestOk(db, r.task.id);
    assert r.task.id in db'.processed && db'.outbox == db.outbox;
    assert r.task.id in db'.force && !RequestOk(db', r.task.id);
  }

  lemma LabelledForceOk(db: Db, r: PriceResult)
    requires ForceOk(db) && !Mislabelled(db, r)
    ensures ForceOk(ProcessPriceResult(db, r).0)
  {
    var db' := ProcessPriceResult(db, r).0;
    if db' != db {
      var t := r.task.id;
      if t !in db.force {
        ResultMarks(db, r);
        MarkedForceOk(db, db', t);
      } else if r.lookup != Empty {
        OtherLookupsIgnored(db, r);
      } else {
        RepliedForceOk(db, r, r.product.id);
      }
    }
  }

  /** Requests and replies stay in step under every result but one kind, which no
      service of this system sends: a lookup result under a force task's id. */
  lemma ResultForceOk(db: Db, r: PriceResult)
    requires ForceOk(db)
    ensures ForceOk(ProcessPriceResult(db, r).0) <==> !Mislabelled(db, r)
  {
    if Mislabelled(db, r) {
      MislabelledLosesReply(db, r);
    } else {
      LabelledForceOk(db, r);
    }
  }

  lemma ResultMarks(db: Db, r: PriceResult)
    requires r.task.Uuid? && r.task.id !in db.force && ProcessPriceResult(db, r).0 != db
    ensures var db' := ProcessPriceResult(db, r).0;
            db'.force == db.force && db'.processed == db.processed + {r.task.id}
            && SameForce(db.(processed := db'.processed), db')
  {
    var db' := ProcessPriceResult(db, r).0;
    ResultTables(db, r);
    ResultMark(db, r);
    assert SameProducts(db.products, db'.products) by {
      ResultIsUnrelated(db, r);
    }
    NoForceEvents(db, r);
  }

  lemma NoForceEvents(db: Db, r: PriceResult)
    requires r.task.Uuid? && r.task.id !in db.force
    ensures forall k | IsForceKey(k) :: k in ProcessPriceResult(db, r).0.outbox <==> k in db.outbox
    ensures OutboxExtends(db, ProcessPriceResult(db, r).0)
  {
    OpExtends(db, Processing(r));
    var db' := ProcessPriceResult(db, r).0;
    if db'.outbox != db.outbox {
      var p := r.product.id;
      RecordedIsUnrelated(db, p, r);
      AlertKeysOnly(Recorded(db, p, r), db.products[p], p, r.price.kopecks, r.currency);
    }
  }

  lemma AlertKeysOnly(db: Db, product: Product, p: Id, price: Price, currency: string)
    ensures forall k | IsForceKey(k) :: k in Alerted(db, product, p, price, currency).outbox <==> k in db.outbox
  {
  }

  lemma OpForceOk(db: Db, op: Op)
    requires ForceOk(db) && Admissible(db, op)
    ensures ForceOk(Apply(db, op).0) <==> (op.Processing? ==> !Mislabelled(db, op.result))
  {
    var db' := Apply(db, op).0;
    match op
    case Processing(r) => ResultForceOk(db, r);
    case QueueingForce(s, user, chat, task) => QueueForceOk(db, s, user, chat, task);
    case Creating(user, p, min, max, newId) =>
      CreateSameForce(db, user, p, min, max, newId);
      SameForceOk(db, db');
    case Reconciling(ids) =>
      BumpAllSameForce(db, ids);
      SameForceOk(db, db');
    case _ =>
      OthersSameForce(db, op);
      SameForceOk(db, db');
  }

  lemma OthersSameForce(db: Db, op: Op)
    requires Admissible(db, op)
    requires op.PostingLookup? || op.EnsuringProduct? || op.Mutating? || op.UpsertingUser?
    ensures SameForce(db, Apply(db, op).0)
  {
    match op
    case PostingLookup(rawURL, lookup, task) => LookupSameForce(db, rawURL, lookup, task);
    case EnsuringProduct(lookup, candidate) => ProductSameForce(db, lookup, candidate);
    case Mutating(s, user, m) => MutateSameForce(db, s, user, m);
    case UpsertingUser(_, _) =>
  }

  lemma MutateSameForce(db: Db, s: Id, user: Id, m: Mutation)
    ensures SameForce(db, MutateSubscription(db, s, user, m).0)
  {
  }
}
