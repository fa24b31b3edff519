/** What each command of the Gateway leaves behind, column by column, and when it
    succeeds: after any run, and independently of how the command computes it. */
module Commands {
  import opened Wrappers
  import opened GatewayDb
  import opened Gateway
  import Platform
  import Catalog
  import Results
  import Transactions

  // ─── What runs keep ─────────────────────────────────────────────────────────

  /** Commands and replies of force requests come with the request and with its result. */
  ghost predicate Behind(db: Db) {
    && (forall t: Id | ForceKey(t) in db.outbox :: t in db.force)
    && (forall t: Id | ForceResultKey(t) in db.outbox :: t in db.processed)
    && forall t | t in db.force :: db.force[t].product in db.products
  }

  ghost predicate OneUserPerChat(users: map<Id, Chat>) {
    forall u, v | u in users && v in users && users[u] == users[v] :: u == v
  }

  ghost predicate OwnersKnown(db: Db) {
    forall s | s in db.subs :: db.subs[s].user in db.users
  }

  ghost predicate Sound(db: Db) {
    && Truthful(db) && Catalog.UrlsOk(db) && Transactions.RowsOk(db) && Results.HistoryInv(db)
    && Behind(db) && OneUserPerChat(db.users) && OwnersKnown(db)
  }

  lemma SameForceBehind(db: Db, db': Db)
    requires Behind(db) && Catalog.SameForce(db, db')
    ensures Behind(db')
  {
    forall t: Id | ForceKey(t) in db'.outbox ensures t in db'.force {
      assert Catalog.IsForceKey(ForceKey(t));
    }
    forall t: Id | ForceResultKey(t) in db'.outbox ensures t in db'.processed {
      assert Catalog.IsForceKey(ForceResultKey(t));
    }
  }

  lemma ResultBehind(db: Db, r: PriceResult)
    requires Behind(db)
    ensures Behind(ProcessPriceResult(db, r).0)
  {
    ResultCases(db, r);
    if !LeavesTables(db, ProcessPriceResult(db, r).0) {
      RecordedBehind(db, r, ProcessPriceResult(db, r).0);
    }
  }

  lemma RecordedBehind(db: Db, r: PriceResult, db': Db)
    requires Behind(db) && ProductRecorded(db, r, db')
    ensures Behind(db')
  {
    RecordedSameOutbox(db, r.product.id, r);
    Catalog.RecordedTables(db, r.product.id, r);
    RecordedMark(db, r.product.id, r);
  }

  lemma RecordedMark(db: Db, p: Id, r: PriceResult)
    requires r.task.Uuid? && p in db.products
    requires r.success ==> ValidPrice(r.price) && r.scrapedAt.Some?
    ensures Recorded(db, p, r).processed == db.processed + {r.task.id}
    ensures Recorded(db, p, r).users == db.users && Recorded(db, p, r).subs == db.subs
    ensures Recorded(db, p, r).lookups == db.lookups && Recorded(db, p, r).force == db.force
  {
  }

  lemma OpBehind(db: Db, op: Op)
    requires Behind(db) && Admissible(db, op)
    ensures Behind(Apply(db, op).0)
  {
    match op
    case Processing(r) => ResultBehind(db, r);
    case QueueingForce(s, user, chat, task) =>
    case Creating(user, p, min, max, newId) =>
      Catalog.CreateSameForce(db, user, p, min, max, newId);
      SameForceBehind(db, Apply(db, op).0);
    case Reconciling(ids) =>
      Catalog.BumpAllSameForce(db, ids);
      SameForceBehind(db, Apply(db, op).0);
    case _ =>
      Catalog.OthersSameForce(db, op);
      SameForceBehind(db, Apply(db, op).0);
  }

  lemma {:induction false} BumpAllUsers(db: Db, ids: seq<Id>)
    requires forall p | p in ids :: p in db.products
    ensures BumpAll(db, ids).users == db.users && BumpAll(db, ids).subs == db.subs
    decreases |ids|
  {
    if ids != [] {
      BumpAllUsers(Bump(db, ids[0]), ids[1..]);
    }
  }

  lemma ResultUsers(db: Db, r: PriceResult)
    ensures ProcessPriceResult(db, r).0.users == db.users
  {
    ResultCases(db, r);
    if !LeavesTables(db, ProcessPriceResult(db, r).0) {
      RecordedMark(db, r.product.id, r);
    }
  }

  /** Users are only added, and keep their chat. */
  lemma OpUsers(db: Db, op: Op)
    requires Admissible(db, op)
    ensures !op.UpsertingUser? ==> Apply(db, op).0.users == db.users
  {
    match op
    case Processing(r) => ResultUsers(db, r);
    case Reconciling(ids) => BumpAllUsers(db, ids);
    case Creating(user, p, min, max, newId) => var _ := CreateTables(db, user, p, min, max, newId);
    case PostingLookup(rawURL, lookup, task) => LookupTables(db, rawURL, lookup, task);
    case _ =>
  }

  lemma OpOwners(db: Db, op: Op)
    requires OwnersKnown(db) && Transactions.RowsOk(db) && Admissible(db, op)
    ensures OwnersKnown(Apply(db, op).0)
  {
    var db' := Apply(db, op).0;
    Transactions.OpFramed(db, op);
    Transactions.OpRowsOk(db, op);
    OpUsers(db, op);
    forall s | s in db'.subs ensures db'.subs[s].user in db'.users {
      if s !in db.subs {
        CreatedOwner(db, op.user, op.product, op.min, op.max, op.newId);
      }
    }
  }

  lemma CreatedOwner(db: Db, user: Id, p: Id, min: Price, max: Price, newId: Id)
    ensures var db' := CreateSubscription(db, user, p, min, max, newId).0;
            newId in db'.subs && newId !in db.subs ==> db'.subs[newId].user == user && user in db.users
  {
  }

  lemma OpIsSound(db: Db, op: Op)
    requires Sound(db) && Admissible(db, op)
    ensures Sound(Apply(db, op).0)
  {
    OpTells(db, op);
    Catalog.OpUrls(db, op);
    Transactions.OpRowsOk(db, op);
    Results.OpKeepsHistory(db, op);
    OpBehind(db, op);
    OpUsers(db, op);
    OpOwners(db, op);
  }

  lemma {:induction false} RunIsSound(db: Db, ops: seq<Op>)
    requires Sound(db) && AdmissibleRun(db, ops)
    ensures Sound(Run(db, ops))
    decreases |ops|
  {
    if ops != [] {
      OpIsSound(db, ops[0]);
      RunIsSound(Apply(db, ops[0]).0, ops[1..]);
    }
  }

  /** After some run. */
  ghost predicate Reached(db: Db) {
    exists ops :: AdmissibleRun(EMPTY, ops) && Run(EMPTY, ops) == db
  }

  lemma ReachedIsSound(db: Db)
    requires Reached(db)
    ensures Sound(db)
  {
    var ops :| AdmissibleRun(EMPTY, ops) && Run(EMPTY, ops) == db;
    RunIsSound(EMPTY, ops);
  }

  // ─── Announcing a product's state ───────────────────────────────────────────

  /** Somebody has the product in an active subscription that is not paused. */
  ghost predicate Wanted(subs: map<Id, Sub>, p: Id) {
    exists s | s in subs :: subs[s].product == p && subs[s].active && !subs[s].paused
  }

  /** The product's version goes up by one, and one new snapshot tells whether anybody
      wants it now; other products and events stay. */
  ghost predicate Announces(db: Db, db': Db, p: Id) {
    && p in db.products
    && var v := db.products[p].version + 1;
    && TrackKey(p, v) !in db.outbox
    && db'.products == db.products[p := db.products[p].(version := v)]
    && db'.outbox == db.outbox[TrackKey(p, v) := Snapshot(p, db.products[p].url, v, Wanted(db'.subs, p), 1)]
  }

  predicate SameRest(db: Db, db': Db) {
    && db'.users == db.users && db'.history == db.history && db'.processed == db.processed
    && db'.force == db.force && db'.lookups == db.lookups
  }

  /** Only the row of `s` has changed, or been added. */
  ghost predicate OnlyRow(db: Db, db': Db, s: Id) {
    && db'.subs.Keys == db.subs.Keys + {s}
    && forall t | t in db.subs && t != s :: db'.subs[t] == db.subs[t]
  }

  lemma BumpAnnounces(db: Db, p: Id)
    requires p in db.products && TrackKey(p, db.products[p].version + 1) !in db.outbox
    ensures Announces(db, Bump(db, p), p) && SameRest(db, Bump(db, p)) && Bump(db, p).subs == db.subs
  {
    assert Watched(db.subs, p) <==> Wanted(db.subs, p) by {
      if Watched(db.subs, p) {
        var s :| s in db.subs && WatchingRow(db.subs[s], p);
      }
      if Wanted(db.subs, p) {
        var s :| s in db.subs && db.subs[s].product == p && db.subs[s].active && !db.subs[s].paused;
        assert WatchingRow(db.subs[s], p);
      }
    }
  }

  predicate NextKeyFree(db: Db, p: Id) {
    p in db.products && TrackKey(p, db.products[p].version + 1) !in db.outbox
  }

  lemma SoundKeysFree(db: Db, p: Id)
    requires Sound(db) && p in db.products
    ensures NextKeyFree(db, p)
  {
  }

  ghost predicate Wrote(db: Db, db': Db, s: Id, row: Sub, p: Id) {
    Announces(db, db', p) && SameRest(db, db') && db'.subs == db.subs[s := row]
  }

  lemma WroteOnly(db: Db, db': Db, s: Id, row: Sub, p: Id)
    requires Wrote(db, db', s, row, p)
    ensures OnlyRow(db, db', s) && s in db'.subs && db'.subs[s] == row
  {
  }

  /** A row written and its product announced. */
  lemma WriteAnnounces(db: Db, s: Id, row: Sub, p: Id)
    requires NextKeyFree(db, p)
    ensures Wrote(db, Bump(db.(subs := db.subs[s := row]), p), s, row, p)
  {
    var db1 := db.(subs := db.subs[s := row]);
    BumpAnnounces(db1, p);
    AnnouncesFrom(db, db1, Bump(db1, p), p);
  }

  lemma AnnouncesFrom(db: Db, db1: Db, db': Db, p: Id)
    requires Announces(db1, db', p) && db1.products == db.products && db1.outbox == db.outbox
    ensures Announces(db, db', p)
  {
  }

  // ─── Pause, resume, thresholds, delete ──────────────────────────────────────

  /** The request is from the owner of an active row. */
  predicate MayMutate(db: Db, s: Id, user: Id) {
    s in db.subs && db.subs[s].user == user && db.subs[s].active
  }

  predicate SetsThresholds(m: Mutation, row: Sub) {
    m.Thresholds? && (row.min != Some(m.min) || row.max != Some(m.max))
  }

  /** Column by column. */
  predicate RowAfter(m: Mutation, row: Sub, row': Sub) {
    && row'.user == row.user && row'.product == row.product
    && row'.active == (row.active && m != Delete)
    && row'.paused == (m == Pause || (row.paused && m != Resume))
    && row'.min == (if m.Thresholds? then Some(m.min) else row.min)
    && row'.max == (if m.Thresholds? then Some(m.max) else row.max)
    && row'.alertState == (if SetsThresholds(m, row) then Quiet else row.alertState)
    && row'.alertVersion == row.alertVersion + (if SetsThresholds(m, row) then 1 else 0)
  }

  /** Pausing, resuming, new thresholds and deleting succeed for the owner of an active
      subscription and for nobody else. They change its row as they should and no other,
      and announce the product's new state. Deleting a deleted one is no error. */
  lemma MutationLeaves(db: Db, s: Id, user: Id, m: Mutation)
    requires Reached(db)
    ensures var (db', outcome) := MutateSubscription(db, s, user, m);
            && outcome == (if MayMutate(db, s, user) then Committed
                           else if m == Delete && s in db.subs && db.subs[s].user == user then Unchanged
                           else NotFound)
            && (outcome != Committed ==> db' == db)
            && (outcome == Committed ==>
                  && OnlyRow(db, db', s) && s in db'.subs && RowAfter(m, db.subs[s], db'.subs[s])
                  && Announces(db, db', db.subs[s].product) && SameRest(db, db'))
  {
    ReachedIsSound(db);
    if MayMutate(db, s, user) {
      SoundKeysFree(db, db.subs[s].product);
      CommittedMutation(db, s, user, m);
    }
  }

  lemma CommittedMutation(db: Db, s: Id, user: Id, m: Mutation)
    requires MayMutate(db, s, user) && NextKeyFree(db, db.subs[s].product)
    ensures var (db', outcome) := MutateSubscription(db, s, user, m);
            && outcome == Committed
            && OnlyRow(db, db', s) && s in db'.subs && RowAfter(m, db.subs[s], db'.subs[s])
            && Announces(db, db', db.subs[s].product) && SameRest(db, db')
  {
    var row, p := MutatedRow(m, db.subs[s]), db.subs[s].product;
    MutationWrites(db, s, user, m);
    WroteOnly(db, MutateSubscription(db, s, user, m).0, s, row, p);
  }

  lemma MutationWrites(db: Db, s: Id, user: Id, m: Mutation)
    requires MayMutate(db, s, user) && NextKeyFree(db, db.subs[s].product)
    ensures MutateSubscription(db, s, user, m).1 == Committed
    ensures Wrote(db, MutateSubscription(db, s, user, m).0, s, MutatedRow(m, db.subs[s]), db.subs[s].product)
  {
    WriteAnnounces(db, s, MutatedRow(m, db.subs[s]), db.subs[s].product);
  }

  /** So a resumed subscription is wanted and announced as such, and neither a paused nor
      a deleted one keeps its product wanted. */
  lemma MutationIsFelt(db: Db, s: Id, user: Id, m: Mutation)
    requires Reached(db) && MayMutate(db, s, user)
    ensures var db', p := MutateSubscription(db, s, user, m).0, db.subs[s].product;
            && p in db'.products && p in db.products && db'.products[p].version == db.products[p].version + 1
            && (m == Resume ==> Wanted(db'.subs, p))
            && (m == Pause || m == Delete ==>
                  (Wanted(db'.subs, p) <==>
                     exists t | t in db.subs ::
                       t != s && db.subs[t].product == p && db.subs[t].active && !db.subs[t].paused))
            && (m.Thresholds? ==> (Wanted(db'.subs, p) <==> Wanted(db.subs, p)))
  {
    MutationLeaves(db, s, user, m);
    var db', p := MutateSubscription(db, s, user, m).0, db.subs[s].product;
    assert forall t | t in db.subs && t != s :: db'.subs[t] == db.subs[t];
    if m == Pause || m == Delete {
      assert !(db'.subs[s].active && !db'.subs[s].paused);
    }
  }

  /** Pausing and resuming again gives back the row as it was. */
  lemma ResumeUndoesPause(db: Db, s: Id, user: Id)
    requires Reached(db) && MayMutate(db, s, user) && !db.subs[s].paused
    ensures var db' := MutateSubscription(MutateSubscription(db, s, user, Pause).0, s, user, Resume).0;
            db'.subs == db.subs
  {
    var mid := MutateSubscription(db, s, user, Pause).0;
    MutationLeaves(db, s, user, Pause);
    OneOpReached(db, Mutating(s, user, Pause));
    MutationLeaves(mid, s, user, Resume);
    SameAgain(db, mid, MutateSubscription(mid, s, user, Resume).0, s);
  }

  lemma SameAgain(db: Db, mid: Db, db': Db, s: Id)
    requires OnlyRow(db, mid, s) && OnlyRow(mid, db', s) && s in db.subs && db.subs[s].active && !db.subs[s].paused
    requires RowAfter(Pause, db.subs[s], mid.subs[s]) && RowAfter(Resume, mid.subs[s], db'.subs[s])
    ensures db'.subs == db.subs
  {
  }

  lemma OneOpReached(db: Db, op: Op)
    requires Reached(db) && Admissible(db, op)
    ensures Reached(Apply(db, op).0)
  {
    var ops :| AdmissibleRun(EMPTY, ops) && Run(EMPTY, ops) == db;
    Transactions.RunSnoc(EMPTY, ops, op);
    assert AdmissibleRun(EMPTY, ops + [op]) && Run(EMPTY, ops + [op]) == Apply(db, op).0;
  }

  // ─── Create ─────────────────────────────────────────────────────────────────

  predicate Owns(db: Db, s: Id, user: Id, p: Id) {
    s in db.subs && db.subs[s].user == user && db.subs[s].product == p
  }

  /** A new row, or an old one taken up again. */
  predicate Renewed(row: Sub, min: Price, max: Price, row': Sub) {
    var reset := !row.active || row.min != Some(min) || row.max != Some(max);
    && row'.user == row.user && row'.product == row.product && row'.active && !row'.paused
    && row'.min == Some(min) && row'.max == Some(max)
    && row'.alertState == (if reset then Quiet else row.alertState)
    && row'.alertVersion == row.alertVersion + (if reset then 1 else 0)
  }

  /** Creating succeeds for a known user and product. Afterwards the user's one row for
      the product is active, not paused and has the given thresholds, no other row has
      changed, and the product was announced unless nothing changed at all. */
  lemma CreationLeaves(db: Db, user: Id, p: Id, min: Price, max: Price, newId: Id) returns (s: Id)
    requires Reached(db) && newId !in db.subs
    ensures var (db', outcome) := CreateSubscription(db, user, p, min, max, newId);
            && outcome == (if p in db.products && user in db.users then Committed else DbError)
            && (outcome != Committed ==> db' == db)
            && (outcome == Committed ==> Created(db, user, p, min, max, newId, s, db'))
  {
    ReachedIsSound(db);
    s := newId;
    if p in db.products {
      match FindSubscription(db.subs, user, p)
      case None =>
        if user in db.users {
          SoundKeysFree(db, p);
          RowAdded(db, user, p, min, max, newId);
        }
      case Some(found) =>
        s := found;
        SoundKeysFree(db, p);
        RowRenewed(db, user, p, min, max, newId, s);
    }
  }

  /** What a committed creation leaves, with `s` the row. */
  ghost predicate Created(db: Db, user: Id, p: Id, min: Price, max: Price, newId: Id, s: Id, db': Db) {
    && OnlyRow(db, db', s) && SameRest(db, db')
    && s in db'.subs && (forall t | Owns(db', t, user, p) :: t == s)
    && (if Owns(db, s, user, p) then Renewed(db.subs[s], min, max, db'.subs[s])
        else s == newId && db'.subs[s] == Sub(user, p, Some(min), Some(max), true, false, Quiet, 0))
    && if s in db.subs && db'.subs[s] == db.subs[s] then db' == db else Announces(db, db', p)
  }

  lemma RowAdded(db: Db, user: Id, p: Id, min: Price, max: Price, newId: Id)
    requires newId !in db.subs && NextKeyFree(db, p) && user in db.users
    requires FindSubscription(db.subs, user, p).None?
    ensures var (db', outcome) := CreateSubscription(db, user, p, min, max, newId);
            outcome == Committed && Created(db, user, p, min, max, newId, newId, db')
  {
    var row := NewRow(user, p, min, max);
    WriteAnnounces(db, newId, row, p);
    WroteOnly(db, CreateSubscription(db, user, p, min, max, newId).0, newId, row, p);
  }

  lemma SameOwners(db: Db, db': Db, s: Id, user: Id, p: Id)
    requires OnlyRow(db, db', s) && forall t | Owns(db, t, user, p) :: t == s
    ensures forall t | Owns(db', t, user, p) :: t == s
  {
    forall t | Owns(db', t, user, p) && t != s ensures Owns(db, t, user, p) {
    }
  }

  lemma RowRenewed(db: Db, user: Id, p: Id, min: Price, max: Price, newId: Id, s: Id)
    requires NextKeyFree(db, p) && FindSubscription(db.subs, user, p) == Some(s)
    requires forall t | Owns(db, t, user, p) :: t == s
    ensures var (db', outcome) := CreateSubscription(db, user, p, min, max, newId);
            outcome == Committed && Created(db, user, p, min, max, newId, s, db')
  {
    var row := RecreatedRow(db.subs[s], min, max);
    if ResetsAlert(db.subs[s], min, max) || db.subs[s].paused {
      assert row != db.subs[s];
      WriteAnnounces(db, s, row, p);
      WroteOnly(db, CreateSubscription(db, user, p, min, max, newId).0, s, row, p);
      SameOwners(db, CreateSubscription(db, user, p, min, max, newId).0, s, user, p);
    } else {
      assert row == db.subs[s];
      assert db.subs[s := db.subs[s]] == db.subs;
    }
  }

  /** So the creator's product is wanted. */
  lemma CreationIsFelt(db: Db, user: Id, p: Id, min: Price, max: Price, newId: Id)
    requires Reached(db) && newId !in db.subs && p in db.products && user in db.users
    ensures Wanted(CreateSubscription(db, user, p, min, max, newId).0.subs, p)
  {
    var s := CreationLeaves(db, user, p, min, max, newId);
    assert CreateSubscription(db, user, p, min, max, newId).0.subs[s].active;
  }

  // ─── Force requests ─────────────────────────────────────────────────────────

  /** A force request succeeds for the owner of an active subscription who asks from the
      user's own chat. It saves whom to answer and enqueues the command for the
      subscription's product; nothing else changes. */
  lemma ForceLeaves(db: Db, s: Id, user: Id, chat: Chat, task: Id)
    requires Reached(db) && Admissible(db, QueueingForce(s, user, chat, task))
    ensures var (db', outcome) := QueueForce(db, s, user, chat, task);
            && outcome == (if MayMutate(db, s, user) && user in db.users && db.users[user] == chat then Committed
                           else NotFound)
            && (outcome != Committed ==> db' == db)
            && (outcome == Committed ==>
                  var p := db.subs[s].product;
                  && ForceKey(task) !in db.outbox && p in db.products
                  && db' == db.(force := db.force[task := ForceRequest(p, user, chat)],
                                outbox := db.outbox[ForceKey(task) :=
                                                      ForceCommand(task, p, db.products[p].url, chat)]))
  {
    ReachedIsSound(db);
  }

  // ─── Lookups, products, users ───────────────────────────────────────────────

  /** A lookup is taken for a text that names the host and holds a product link; it is
      stored as pending, with the canonical link, and its command enqueued. */
  lemma LookupLeaves(db: Db, rawURL: string, lookup: Id, task: Id)
    requires Admissible(db, PostingLookup(rawURL, lookup, task))
    ensures var (db', outcome) := PostLookup(db, rawURL, lookup, task);
            var url := Platform.NormalizeWB(rawURL);
            && outcome == (if !Platform.Detect(rawURL) || url.None? then Invalid
                           else if lookup in db.lookups then DbError else Committed)
            && (outcome != Committed ==> db' == db)
            && (outcome == Committed ==>
                  && Platform.Canonical(url.value) && LookupKey(task) !in db.outbox
                  && db' == db.(lookups := db.lookups[lookup := Lookup(url.value, Pending)],
                                outbox := db.outbox[LookupKey(task) := LookupTask(task, lookup, url.value)]))
  {
    Platform.NormalizedIsCanonical(rawURL);
  }

  /** `p` is the product of the lookup. */
  ghost predicate Named(products: map<Id, Product>, l: Lookup, candidate: Id, p: Id, products': map<Id, Product>)
    requires l.status.Done?
  {
    && products'.Keys == products.Keys + {p}
    && (forall q | q in products' :: products'[q].url == l.url <==> q == p)
    && (forall q | q in products && q != p :: products'[q] == products[q])
    && products'[p].name == l.status.name
    && (if p in products then
          products'[p].version == products[p].version && products'[p].latest == products[p].latest
        else p == candidate && products'[p].version == 0 && products'[p].latest == None)
  }

  lemma ProductRenamed(db: Db, lookup: Id, candidate: Id, p: Id)
    requires Catalog.UrlsOk(db) && lookup in db.lookups && db.lookups[lookup].status.Done?
    requires FindProduct(db.products, db.lookups[lookup].url) == Some(p)
    ensures var (db', outcome) := EnsureProduct(db, lookup, candidate);
            outcome == Committed && db' == db.(products := db'.products)
            && Named(db.products, db.lookups[lookup], candidate, p, db'.products)
  {
  }

  lemma ProductAdded(db: Db, lookup: Id, candidate: Id)
    requires candidate !in db.products && lookup in db.lookups && db.lookups[lookup].status.Done?
    requires FindProduct(db.products, db.lookups[lookup].url).None?
    ensures var (db', outcome) := EnsureProduct(db, lookup, candidate);
            outcome == Committed && db' == db.(products := db'.products)
            && Named(db.products, db.lookups[lookup], candidate, candidate, db'.products)
  {
  }

  /** A finished lookup yields the one product with its URL, under the name it found; a
      product that is new starts without versions and results. */
  lemma ProductLeaves(db: Db, lookup: Id, candidate: Id) returns (p: Id)
    requires Reached(db) && candidate !in db.products
    ensures var (db', outcome) := EnsureProduct(db, lookup, candidate);
            && outcome == (if lookup in db.lookups && db.lookups[lookup].status.Done? then Committed else Invalid)
            && (outcome != Committed ==> db' == db)
            && (outcome == Committed ==>
                  && db' == db.(products := db'.products)
                  && Named(db.products, db.lookups[lookup], candidate, p, db'.products))
  {
    ReachedIsSound(db);
    p := candidate;
    if lookup in db.lookups && db.lookups[lookup].status.Done? {
      match FindProduct(db.products, db.lookups[lookup].url)
      case Some(q) =>
        p := q;
        ProductRenamed(db, lookup, candidate, p);
      case None =>
        ProductAdded(db, lookup, candidate);
    }
  }

  /** `u` is the one user of the chat. */
  ghost predicate Met(db: Db, newId: Id, chat: Chat, u: Id, db': Db, outcome: Outcome) {
    && db' == db.(users := db'.users) && OneUserPerChat(db'.users)
    && u in db'.users && db'.users[u] == chat
    && (forall v | v in db.users :: v in db'.users && db'.users[v] == db.users[v])
    && if exists v | v in db.users :: db.users[v] == chat then db' == db && outcome == Unchanged
       else outcome == Committed && u == newId && db'.users.Keys == db.users.Keys + {newId}
  }

  /** Every chat has one user: the first contact adds it, later ones find it. */
  lemma UserLeaves(db: Db, newId: Id, chat: Chat) returns (u: Id)
    requires Reached(db) && newId !in db.users
    ensures var (db', outcome) := UpsertUser(db, newId, chat);
            Met(db, newId, chat, u, db', outcome)
  {
    ReachedIsSound(db);
    u := UserOf(db, newId, chat);
  }

  lemma UserOf(db: Db, newId: Id, chat: Chat) returns (u: Id)
    requires OneUserPerChat(db.users) && newId !in db.users
    ensures var (db', outcome) := UpsertUser(db, newId, chat);
            Met(db, newId, chat, u, db', outcome)
  {
    u := if v :| v in db.users && db.users[v] == chat then v else newId;
  }

  // ─── Reconciliation ─────────────────────────────────────────────────────────

  ghost predicate AnnouncedOnce(db: Db, db': Db, p: Id)
    requires p in db.products && p in db'.products
  {
    var v := db.products[p].version + 1;
    && db'.products[p] == db.products[p].(version := v)
    && TrackKey(p, v) in db'.outbox
    && db'.outbox[TrackKey(p, v)] == Snapshot(p, db.products[p].url, v, Wanted(db.subs, p), 1)
  }

  /** Each product in the list moves up one version and is announced as it is. */
  ghost predicate AllAnnounced(db: Db, db': Db, ids: set<Id>) {
    && db'.subs == db.subs && SameRest(db, db') && db'.products.Keys == db.products.Keys
    && (forall p | p in db.products && p !in ids :: db'.products[p] == db.products[p])
    && (forall p | p in ids && p in db.products :: AnnouncedOnce(db, db', p))
    && (forall k | k in db.outbox :: k in db'.outbox && db'.outbox[k] == db.outbox[k])
    && forall k | k in db'.outbox && k !in db.outbox :: k.TrackKey? && k.product in ids
  }

  lemma {:induction false} BumpAllAnnounces(db: Db, ids: seq<Id>)
    requires Truthful(db) && Ascending(ids) && forall p | p in ids :: p in db.products
    ensures AllAnnounced(db, BumpAll(db, ids), Listed(ids))
    decreases |ids|
  {
    if ids != [] {
      var p, db1 := ids[0], Bump(db, ids[0]);
      BumpTells(db, p);
      BumpAnnounces(db, p);
      BumpAllAnnounces(db1, ids[1..]);
      FirstListed(ids);
      AnnouncedThen(db, db1, BumpAll(db, ids), p, Listed(ids[1..]), Listed(ids));
    }
  }

  function Listed(ids: seq<Id>): set<Id> {
    set p | p in ids
  }

  lemma FirstListed(ids: seq<Id>)
    requires Ascending(ids) && ids != []
    ensures Ascending(ids[1..]) && ids[0] !in Listed(ids[1..]) && Listed(ids) == Listed(ids[1..]) + {ids[0]}
  {
  }

  lemma AnnouncedThen(db: Db, db1: Db, db2: Db, p: Id, rest: set<Id>, all: set<Id>)
    requires Announces(db, db1, p) && SameRest(db, db1) && db1.subs == db.subs
    requires AllAnnounced(db1, db2, rest) && p !in rest && all == rest + {p}
    ensures AllAnnounced(db, db2, all)
  {
    forall q | q in all && q in db.products ensures AnnouncedOnce(db, db2, q) {
      AnnouncedByThen(db, db1, db2, p, rest, q);
    }
  }

  lemma AnnouncedByThen(db: Db, db1: Db, db2: Db, p: Id, rest: set<Id>, q: Id)
    requires Announces(db, db1, p) && db1.subs == db.subs && AllAnnounced(db1, db2, rest) && p !in rest
    requires q in db.products && (q == p || q in rest)
    ensures AnnouncedOnce(db, db2, q)
  {
    if q != p {
      assert AnnouncedOnce(db1, db2, q);
    }
  }

  /** Reconciliation announces every product, inactive ones included. */
  lemma ReconciliationLeaves(db: Db)
    requires Reached(db)
    ensures AllAnnounced(db, Reconciled(db), db.products.Keys)
  {
    ReachedIsSound(db);
    var ids := ProductsInOrder(db);
    BumpAllAnnounces(db, ids);
  }

  lemma ProductsInOrder(db: Db) returns (ids: seq<Id>)
    ensures Ascending(ids) && Listed(ids) == db.products.Keys && (forall p | p in ids :: p in db.products)
    ensures Reconciled(db) == BumpAll(db, ids)
  {
    ids := Ordered(db.products.Keys);
    OrderedIs(db.products.Keys);
  }
}
