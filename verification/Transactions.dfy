/** Concurrent subscription transactions, one SQL statement at a time.

    A transaction sees the committed tables and its own writes, waits for product
    row locks, and may abort at any point. Every interleaving leaves the database
    some serial execution of the same commands leaves, and every command returns
    what it would have returned had it run alone at the moment it ended. */
module Transactions {
  import opened Wrappers
  import opened GatewayDb
  import opened Gateway

  type TxId = nat

  datatype Command =
    | Mutate(sub: Id, user: Id, mutation: Mutation)
    | Create(user: Id, product: Id, min: Price, max: Price, newId: Id)
    | Reconcile

  /** The next statement. `Lock(i)` locks the i-th target; `Reread` reads the
      subscription under the lock; versions and snapshots are written target by target. */
  datatype Pc =
    | ReadSub
    | Lock(i: nat)
    | Reread
    | Write
    | BumpVersion(i: nat)
    | TakeSnapshot(i: nat, version: nat)
    | Commit

  /** An uncommitted version update together with its snapshot. */
  datatype Pend = Pend(product: Id, version: nat, active: bool)

  /** `targets`: the products to lock, in order. `held`: the versions read under the
      locks taken so far. `seen`: the row found by `Reread`. `written`: uncommitted rows. */
  datatype Tx = Tx(cmd: Command, pc: Pc, targets: seq<Id>, held: seq<nat>, seen: Option<Id>,
                   written: map<Id, Sub>, pending: seq<Pend>)

  /** `log` lists the operations in the order in which they took effect. */
  datatype World = World(db: Db, owner: map<Id, TxId>, txs: map<TxId, Tx>, log: seq<Op>)

  datatype Action =
    | Begin(tid: TxId, cmd: Command, ids: seq<Id>)
    | Advance(tid: TxId)
    | Abort(tid: TxId)
    | Atomic(op: Op)

  // ─── Statements ─────────────────────────────────────────────────────────────

  function NewTx(cmd: Command, ids: seq<Id>): Tx {
    match cmd
    case Mutate(_, _, _) => Tx(cmd, ReadSub, [], [], None, map[], [])
    case Create(_, p, _, _, _) => Tx(cmd, Lock(0), [p], [], None, map[], [])
    case Reconcile => Tx(cmd, if ids == [] then Commit else Lock(0), ids, [], None, map[], [])
  }

  function Released(w: World, tid: TxId): World {
    w.(owner := map p | p in w.owner && w.owner[p] != tid :: w.owner[p], txs := w.txs - {tid})
  }

  function ApplyPend(db: Db, e: Pend): Db {
    if e.product !in db.products then db
    else db.(products := db.products[e.product := db.products[e.product].(version := e.version)],
             outbox := Enqueue(db.outbox, TrackKey(e.product, e.version),
                               Snapshot(e.product, db.products[e.product].url, e.version, e.active, INTERVAL_HOURS)))
  }

  function ApplyPending(db: Db, pending: seq<Pend>): Db
    decreases |pending|
  {
    if pending == [] then db else ApplyPending(ApplyPend(db, pending[0]), pending[1..])
  }

  /** The committed tables after the transaction's writes become visible. */
  function Committing(db: Db, tx: Tx): Db {
    ApplyPending(db.(subs := db.subs + tx.written), tx.pending)
  }

  function OpOf(tx: Tx): Op {
    match tx.cmd
    case Mutate(s, user, m) => Mutating(s, user, m)
    case Create(user, p, min, max, newId) => Creating(user, p, min, max, newId)
    case Reconcile => Reconciling(tx.targets)
  }

  predicate Missing(db: Db, s: Id, user: Id, m: Mutation) {
    s !in db.subs || db.subs[s].user != user || (m != Delete && !db.subs[s].active)
  }

  /** One statement of a transaction: it either goes on, or ends with an outcome. */
  datatype StepResult = GoesOn(tx: Tx) | Ends(db: Db, outcome: Outcome)

  ghost function Statement(db: Db, tx: Tx): StepResult {
    match tx.pc
    case ReadSub =>
      if !tx.cmd.Mutate? || Missing(db, tx.cmd.sub, tx.cmd.user, tx.cmd.mutation) then Ends(db, NotFound)
      else GoesOn(tx.(targets := [db.subs[tx.cmd.sub].product], pc := Lock(0)))
    case Lock(i) =>
      if i >= |tx.targets| || tx.targets[i] !in db.products then Ends(db, DbError)
      else
        var tx' := tx.(held := tx.held + [db.products[tx.targets[i]].version]);
        GoesOn(tx'.(pc := if i + 1 < |tx.targets| then Lock(i + 1)
                          else if tx.cmd.Reconcile? then BumpVersion(0) else Reread))
    case Reread =>
      (match tx.cmd
       case Mutate(s, user, m) =>
         if Missing(db, s, user, m) then Ends(db, NotFound)
         else if !db.subs[s].active then Ends(db, Unchanged)
         else GoesOn(tx.(pc := Write))
       case Create(user, p, _, _, _) => GoesOn(tx.(seen := FindSubscription(db.subs, user, p), pc := Write))
       case Reconcile => GoesOn(tx))
    case Write =>
      (match tx.cmd
       case Mutate(s, user, m) =>
         if s !in db.subs then Ends(db, NotFound)
         else GoesOn(tx.(written := map[s := MutatedRow(m, db.subs[s])], pc := BumpVersion(0)))
       case Create(user, p, min, max, newId) =>
         if tx.seen.None? then
           if user !in db.users then Ends(db, DbError)
           else GoesOn(tx.(written := map[newId := NewRow(user, p, min, max)], pc := BumpVersion(0)))
         else if tx.seen.value !in db.subs then Ends(db, DbError)
         else
           var row := db.subs[tx.seen.value];
           GoesOn(tx.(written := map[tx.seen.value := RecreatedRow(row, min, max)],
                      pc := if ResetsAlert(row, min, max) || row.paused then BumpVersion(0) else Commit))
       case Reconcile => GoesOn(tx))
    case BumpVersion(i) =>
      if i >= |tx.held| then Ends(db, DbError)
      else GoesOn(tx.(pc := TakeSnapshot(i, tx.held[i] + 1)))
    case TakeSnapshot(i, v) =>
      if i >= |tx.targets| then Ends(db, DbError)
      else
        var e := Pend(tx.targets[i], v, Watched(db.subs + tx.written, tx.targets[i]));
        GoesOn(tx.(pending := tx.pending + [e], pc := if i + 1 < |tx.targets| then BumpVersion(i + 1) else Commit))
    case Commit => Ends(Committing(db, tx), Committed)
  }

  // ─── Steps ──────────────────────────────────────────────────────────────────

  /** Products whose row, or whose subscriptions, an operation may change: it waits for their locks. */
  ghost function Touched(db: Db, op: Op): set<Id> {
    match op
    case Creating(_, p, _, _, _) => {p}
    case Mutating(s, _, _) => if s in db.subs then {db.subs[s].product} else {}
    case Reconciling(ids) => set p | p in ids
    case Processing(r) => if r.product.Uuid? then {r.product.id} else {}
    case QueueingForce(s, _, _, _) => if s in db.subs then {db.subs[s].product} else {}
    case EnsuringProduct(lookup, candidate) =>
      if lookup !in db.lookups then {}
      else (match FindProduct(db.products, db.lookups[lookup].url) case Some(p) => {p} case None => {})
    case _ => {}
  }

  /** The id a pending creation will use for its row. */
  predicate Reserves(tx: Tx, id: Id) {
    tx.cmd.Create? && tx.cmd.newId == id
  }

  ghost predicate IdIsNew(w: World, id: Id) {
    id !in w.db.subs && forall t | t in w.txs :: !Reserves(w.txs[t], id)
  }

  ghost predicate Enabled(w: World, a: Action) {
    match a
    case Begin(tid, cmd, ids) =>
      && tid !in w.txs
      && (cmd.Create? ==> IdIsNew(w, cmd.newId))
      && (cmd.Reconcile? ==> Ascending(ids) && forall p :: p in ids <==> p in w.db.products)
    case Advance(tid) =>
      && tid in w.txs
      && var tx := w.txs[tid];
         tx.pc.Lock? && tx.pc.i < |tx.targets| ==> tx.targets[tx.pc.i] !in w.owner
    case Abort(tid) => tid in w.txs
    case Atomic(op) =>
      && Admissible(w.db, op) && Touched(w.db, op) !! w.owner.Keys
      && (op.Creating? ==> IdIsNew(w, op.newId))
  }

  ghost function Do(w: World, a: Action): World
    requires Enabled(w, a)
  {
    match a
    case Begin(tid, cmd, ids) => w.(txs := w.txs[tid := NewTx(cmd, ids)])
    case Abort(tid) => Released(w, tid)
    case Atomic(op) => w.(db := Apply(w.db, op).0, log := w.log + [op])
    case Advance(tid) =>
      var tx := w.txs[tid];
      match Statement(w.db, tx)
      case GoesOn(tx') =>
        w.(txs := w.txs[tid := tx'],
           owner := if tx.pc.Lock? && tx.pc.i < |tx.targets| then w.owner[tx.targets[tx.pc.i] := tid] else w.owner)
      case Ends(db', outcome) =>
        var w' := Released(w, tid).(db := db');
        if outcome == Committed then w'.(log := w.log + [OpOf(tx)]) else w'
  }

  // ─── What a transaction knows while it holds its locks ──────────────────────

  /** `UNIQUE(user_id, product_id)` and the foreign key to products. */
  ghost predicate RowsOk(db: Db) {
    && (forall s, t | s in db.subs && t in db.subs
        && OwnedBy(db.subs[t], db.subs[s].user, db.subs[s].product) :: s == t)
    && forall s | s in db.subs :: db.subs[s].product in db.products
  }

  ghost predicate Found(db: Db, user: Id, p: Id, seen: Option<Id>) {
    match seen
    case Some(s) => s in db.subs && OwnedBy(db.subs[s], user, p)
    case None => forall s | s in db.subs :: !OwnedBy(db.subs[s], user, p)
  }

  /** How far the transaction is. */
  predicate Shape(tx: Tx) {
    && Ascending(tx.targets) && |tx.held| <= |tx.targets| && |tx.pending| <= |tx.targets|
    && (tx.cmd.Create? ==> tx.targets == [tx.cmd.product])
    && (tx.cmd.Reconcile? ==> !tx.pc.ReadSub? && !tx.pc.Reread? && !tx.pc.Write?)
    && match tx.pc
       case ReadSub => tx.cmd.Mutate? && tx.held == [] && tx.pending == [] && tx.written == map[]
       case Lock(i) => |tx.held| == i < |tx.targets| && tx.pending == []
       case Reread => |tx.held| == |tx.targets| && tx.pending == []
       case Write => |tx.held| == |tx.targets| && tx.pending == []
       case BumpVersion(i) => |tx.held| == |tx.targets| && |tx.pending| == i < |tx.targets|
       case TakeSnapshot(i, v) => |tx.held| == |tx.targets| && |tx.pending| == i < |tx.targets| && v == tx.held[i] + 1
       case Commit => |tx.held| == |tx.targets|
  }

  predicate Wrote(tx: Tx) {
    tx.pc.BumpVersion? || tx.pc.TakeSnapshot? || tx.pc.Commit?
  }

  ghost predicate MutateKnows(db: Db, tx: Tx)
    requires tx.cmd.Mutate?
  {
    var s := tx.cmd.sub;
    !tx.pc.ReadSub? ==>
      && s in db.subs && db.subs[s].user == tx.cmd.user && tx.targets == [db.subs[s].product]
      && (tx.pc.Write? || Wrote(tx) ==> db.subs[s].active)
      && tx.written == (if Wrote(tx) then map[s := MutatedRow(tx.cmd.mutation, db.subs[s])] else map[])
      && (tx.pc.Commit? ==> |tx.pending| == 1)
  }

  ghost predicate CreateKnows(db: Db, tx: Tx)
    requires tx.cmd.Create?
  {
    && (tx.pc.Write? || Wrote(tx) ==> Found(db, tx.cmd.user, tx.cmd.product, tx.seen))
    && if !Wrote(tx) then tx.written == map[]
       else if tx.seen.None? then
         && tx.cmd.user in db.users
         && tx.written == map[tx.cmd.newId := NewRow(tx.cmd.user, tx.cmd.product, tx.cmd.min, tx.cmd.max)]
         && (tx.pc.Commit? ==> |tx.pending| == 1)
       else
         var row := db.subs[tx.seen.value];
         && tx.written == map[tx.seen.value := RecreatedRow(row, tx.cmd.min, tx.cmd.max)]
         && if ResetsAlert(row, tx.cmd.min, tx.cmd.max) || row.paused then tx.pc.Commit? ==> |tx.pending| == 1
            else tx.pc.Commit? && tx.pending == []
  }

  ghost predicate ReconcileKnows(db: Db, tx: Tx)
    requires tx.cmd.Reconcile?
  {
    && (forall p | p in tx.targets :: p in db.products)
    && tx.written == map[]
    && (tx.pc.Commit? ==> |tx.pending| == |tx.targets|)
  }

  ghost predicate Knows(db: Db, tx: Tx) {
    match tx.cmd
    case Mutate(_, _, _) => MutateKnows(db, tx)
    case Create(_, _, _, _, _) => CreateKnows(db, tx)
    case Reconcile => ReconcileKnows(db, tx)
  }

  /** Versions read under the locks are still current, and pending snapshots still true. */
  ghost predicate Current(db: Db, tx: Tx)
    requires Shape(tx)
  {
    && (forall i | 0 <= i < |tx.held| ::
          tx.targets[i] in db.products && tx.held[i] == db.products[tx.targets[i]].version)
    && forall i | 0 <= i < |tx.pending| && i < |tx.held| ::
         tx.pending[i] == Pend(tx.targets[i], tx.held[i] + 1, Watched(db.subs + tx.written, tx.targets[i]))
  }

  ghost predicate TxInv(db: Db, tx: Tx) {
    Shape(tx) && Knows(db, tx) && Current(db, tx)
  }

  // ─── Locks keep it so ───────────────────────────────────────────────────────

  predicate OnProduct(subs: map<Id, Sub>, s: Id, p: Id) {
    s in subs && subs[s].product == p
  }

  /** Nothing about product `p` and its subscriptions differs. */
  ghost predicate AgreeOn(db: Db, db': Db, p: Id) {
    && (p in db.products ==> p in db'.products && db'.products[p] == db.products[p])
    && forall s | OnProduct(db.subs, s, p) || OnProduct(db'.subs, s, p) ::
         s in db.subs && s in db'.subs && db'.subs[s] == db.subs[s]
  }

  /** Rows stay, with their owner and product. */
  ghost predicate Persistent(db: Db, db': Db) {
    && db.users.Keys <= db'.users.Keys && db.products.Keys <= db'.products.Keys && db.subs.Keys <= db'.subs.Keys
    && forall s | s in db.subs :: OwnedBy(db'.subs[s], db.subs[s].user, db.subs[s].product)
  }

  lemma WatchedAgrees(db: Db, db': Db, written: map<Id, Sub>, p: Id)
    requires AgreeOn(db, db', p)
    ensures Watched(db'.subs + written, p) == Watched(db.subs + written, p)
  {
    var a, b := db.subs + written, db'.subs + written;
    if Watched(a, p) {
      var s :| s in a && WatchingRow(a[s], p);
      assert s !in written ==> OnProduct(db.subs, s, p);
      assert s in b && WatchingRow(b[s], p);
    }
    if Watched(b, p) {
      var s :| s in b && WatchingRow(b[s], p);
      assert s !in written ==> OnProduct(db'.subs, s, p);
      assert s in a && WatchingRow(a[s], p);
    }
  }

  lemma CurrentSurvives(db: Db, db': Db, tx: Tx)
    requires Shape(tx) && Current(db, tx)
    requires forall i | 0 <= i < |tx.held| :: AgreeOn(db, db', tx.targets[i])
    ensures Current(db', tx)
  {
    forall i | 0 <= i < |tx.pending| && i < |tx.held|
      ensures Watched(db'.subs + tx.written, tx.targets[i]) == Watched(db.subs + tx.written, tx.targets[i])
    {
      assert AgreeOn(db, db', tx.targets[i]);
      WatchedAgrees(db, db', tx.written, tx.targets[i]);
    }
  }

  lemma KnowsSurvives(db: Db, db': Db, tx: Tx)
    requires Shape(tx) && Knows(db, tx) && Persistent(db, db')
    requires forall i | 0 <= i < |tx.held| :: AgreeOn(db, db', tx.targets[i])
    ensures Knows(db', tx)
  {
    match tx.cmd
    case Mutate(s, user, m) =>
      if |tx.held| == 1 {
        assert AgreeOn(db, db', tx.targets[0]);
        assert OnProduct(db.subs, s, tx.targets[0]);
      }
    case Create(user, p, _, _, _) =>
      if |tx.held| == 1 {
        assert AgreeOn(db, db', tx.targets[0]);
        FoundSurvives(db, db', user, p, tx.seen);
        if tx.seen.Some? && tx.seen.value in db.subs {
          assert OnProduct(db.subs, tx.seen.value, p) ==> db'.subs[tx.seen.value] == db.subs[tx.seen.value];
        }
      }
    case Reconcile =>
  }

  lemma FoundSurvives(db: Db, db': Db, user: Id, p: Id, seen: Option<Id>)
    requires AgreeOn(db, db', p)
    ensures Found(db, user, p, seen) ==> Found(db', user, p, seen)
  {
    forall s | s in db'.subs && OwnedBy(db'.subs[s], user, p) ensures s in db.subs && OwnedBy(db.subs[s], user, p) {
      assert OnProduct(db'.subs, s, p);
    }
    if seen.Some? && seen.value in db.subs && OwnedBy(db.subs[seen.value], user, p) {
      assert OnProduct(db.subs, seen.value, p);
    }
  }

  // ─── What an operation leaves alone ─────────────────────────────────────────

  /** What holds of one atomic operation; the locks it waits for are `touched`. */
  ghost predicate Framed(db: Db, db': Db, touched: set<Id>) {
    && Persistent(db, db')
    && forall p | p !in touched :: AgreeOn(db, db', p)
  }

  lemma BumpFramed(db: Db, p: Id)
    requires p in db.products
    ensures Framed(db, Bump(db, p), {p})
  {
  }

  lemma {:induction false} BumpAllFramed(db: Db, ids: seq<Id>)
    requires forall p | p in ids :: p in db.products
    ensures Framed(db, BumpAll(db, ids), set p | p in ids)
    ensures BumpAll(db, ids).subs == db.subs
    decreases |ids|
  {
    if ids != [] {
      BumpFramed(db, ids[0]);
      BumpAllFramed(Bump(db, ids[0]), ids[1..]);
      var all := set p | p in ids;
      assert ids[0] in all && (set p | p in ids[1..]) <= all;
      FramedTwice(db, Bump(db, ids[0]), BumpAll(db, ids), all);
    }
  }

  lemma RowFramed(db: Db, s: Id, row: Sub)
    requires s in db.subs ==> OwnedBy(row, db.subs[s].user, db.subs[s].product)
    ensures Framed(db, db.(subs := db.subs[s := row]), {row.product})
  {
  }

  lemma MutateFramed(db: Db, s: Id, user: Id, m: Mutation)
    ensures Framed(db, MutateSubscription(db, s, user, m).0, Touched(db, Mutating(s, user, m)))
  {
    if MutateSubscription(db, s, user, m).1 == Committed {
      var row := MutatedRow(m, db.subs[s]);
      RowFramed(db, s, row);
      BumpFramed(db.(subs := db.subs[s := row]), row.product);
    }
  }

  lemma CreateFramed(db: Db, user: Id, p: Id, min: Price, max: Price, newId: Id)
    requires newId !in db.subs
    ensures Framed(db, CreateSubscription(db, user, p, min, max, newId).0, {p})
  {
    if p in db.products {
      match FindSubscription(db.subs, user, p)
      case None => RowBumpFramed(db, newId, NewRow(user, p, min, max));
      case Some(s) => RowBumpFramed(db, s, RecreatedRow(db.subs[s], min, max));
    }
  }

  lemma RowBumpFramed(db: Db, s: Id, row: Sub)
    requires s in db.subs ==> OwnedBy(row, db.subs[s].user, db.subs[s].product)
    requires row.product in db.products
    ensures Framed(db, db.(subs := db.subs[s := row]), {row.product})
    ensures Framed(db, Bump(db.(subs := db.subs[s := row]), row.product), {row.product})
  {
    var db1 := db.(subs := db.subs[s := row]);
    RowFramed(db, s, row);
    BumpFramed(db1, row.product);
    FramedTwice(db, db1, Bump(db1, row.product), {row.product});
  }

  lemma AlertedFramed(db: Db, product: Product, p: Id, price: Price, currency: string)
    ensures Framed(db, Alerted(db, product, p, price, currency), {p})
  {
  }

  lemma RecordedFramed(db: Db, p: Id, r: PriceResult)
    requires r.task.Uuid? && p in db.products
    requires r.success ==> ValidPrice(r.price) && r.scrapedAt.Some?
    ensures Framed(db, Recorded(db, p, r), {p})
  {
  }

  lemma FramedTwice(a: Db, b: Db, c: Db, touched: set<Id>)
    requires Framed(a, b, touched) && Framed(b, c, touched)
    ensures Framed(a, c, touched)
  {
    forall p | p !in touched ensures AgreeOn(a, c, p) {
      assert AgreeOn(a, b, p) && AgreeOn(b, c, p);
      forall s | OnProduct(c.subs, s, p) ensures OnProduct(b.subs, s, p) && OnProduct(a.subs, s, p) {
      }
    }
  }

  lemma SameRowsFramed(db: Db, db': Db)
    requires db'.subs == db.subs && db'.products == db.products && db'.users == db.users
    ensures Framed(db, db', {})
  {
  }

  lemma RecordedResultFramed(db: Db, r: PriceResult, db': Db)
    requires ProductRecorded(db, r, db')
    ensures Framed(db, db', {r.product.id})
  {
    var p := r.product.id;
    var db1 := Recorded(db, p, r);
    RecordedFramed(db, p, r);
    if db'.subs == db1.subs {
      SameRowsFramed(db1, db');
    } else {
      AlertedFramed(db1, db.products[p], p, r.price.kopecks, r.currency);
    }
    FramedTwice(db, db1, db', {p});
  }

  lemma ResultFramed(db: Db, r: PriceResult)
    ensures Framed(db, ProcessPriceResult(db, r).0, Touched(db, Processing(r)))
  {
    ResultCases(db, r);
    if LeavesTables(db, ProcessPriceResult(db, r).0) {
      SameRowsFramed(db, ProcessPriceResult(db, r).0);
    } else {
      RecordedResultFramed(db, r, ProcessPriceResult(db, r).0);
    }
  }

  lemma IntakeFramed(db: Db, op: Op)
    requires Admissible(db, op)
    requires op.PostingLookup? || op.UpsertingUser? || op.EnsuringProduct? || op.QueueingForce?
    ensures Framed(db, Apply(db, op).0, Touched(db, op))
  {
    match op
    case PostingLookup(rawURL, lookup, task) =>
      LookupTables(db, rawURL, lookup, task);
      SameRowsFramed(db, Apply(db, op).0);
    case UpsertingUser(_, _) =>
    case EnsuringProduct(lookup, candidate) => ProductFramed(db, lookup, candidate);
    case QueueingForce(_, _, _, _) => SameRowsFramed(db, Apply(db, op).0);
  }

  lemma ProductFramed(db: Db, lookup: Id, candidate: Id)
    requires candidate !in db.products
    ensures Framed(db, EnsureProduct(db, lookup, candidate).0, Touched(db, EnsuringProduct(lookup, candidate)))
  {
  }

  lemma OpFramed(db: Db, op: Op)
    requires Admissible(db, op)
    ensures Framed(db, Apply(db, op).0, Touched(db, op))
  {
    match op
    case Creating(user, p, min, max, newId) => CreateFramed(db, user, p, min, max, newId);
    case Mutating(s, user, m) => MutateFramed(db, s, user, m);
    case Processing(r) => ResultFramed(db, r);
    case Reconciling(ids) => BumpAllFramed(db, ids);
    case _ => IntakeFramed(db, op);
  }

  // ─── One statement ──────────────────────────────────────────────────────────

  /** The invariant survives a statement of the transaction itself. */
  lemma LockKeeps(db: Db, tx: Tx)
    requires RowsOk(db) && TxInv(db, tx) && Statement(db, tx).GoesOn? && (tx.pc.ReadSub? || tx.pc.Lock?)
    ensures TxInv(db, Statement(db, tx).tx)
  {
  }

  lemma RowKeeps(db: Db, tx: Tx)
    requires RowsOk(db) && TxInv(db, tx) && Statement(db, tx).GoesOn? && (tx.pc.Reread? || tx.pc.Write?)
    ensures TxInv(db, Statement(db, tx).tx)
  {
  }

  lemma VersionKeeps(db: Db, tx: Tx)
    requires TxInv(db, tx) && Statement(db, tx).GoesOn? && (tx.pc.BumpVersion? || tx.pc.TakeSnapshot?)
    ensures TxInv(db, Statement(db, tx).tx)
  {
  }

  lemma StatementKeeps(db: Db, tx: Tx)
    requires RowsOk(db) && TxInv(db, tx) && Statement(db, tx).GoesOn?
    ensures TxInv(db, Statement(db, tx).tx)
  {
    if tx.pc.ReadSub? || tx.pc.Lock? {
      LockKeeps(db, tx);
    } else if tx.pc.Reread? || tx.pc.Write? {
      RowKeeps(db, tx);
    } else {
      VersionKeeps(db, tx);
    }
  }

  // ─── Commit is the atomic operation ─────────────────────────────────────────

  /** Pending versions and snapshots, applied in order, are the bumps of the targets. */
  lemma {:induction false} PendingIsBumpAll(db: Db, ids: seq<Id>, pending: seq<Pend>)
    requires Ascending(ids) && |pending| == |ids|
    requires forall i | 0 <= i < |ids| ::
               ids[i] in db.products
               && pending[i] == Pend(ids[i], db.products[ids[i]].version + 1, Watched(db.subs, ids[i]))
    ensures forall p | p in ids :: p in db.products
    ensures ApplyPending(db, pending) == BumpAll(db, ids)
    decreases |ids|
  {
    if ids != [] {
      assert ApplyPend(db, pending[0]) == Bump(db, ids[0]);
      forall i | 0 <= i < |ids[1..]|
        ensures Bump(db, ids[0]).products[ids[1..][i]] == db.products[ids[1..][i]]
      {
        assert ids[1..][i] == ids[i + 1];
      }
      PendingIsBumpAll(Bump(db, ids[0]), ids[1..], pending[1..]);
    }
  }

  lemma OneBump(db: Db, p: Id)
    requires p in db.products
    ensures BumpAll(db, [p]) == Bump(db, p)
  {
    assert [p][1..] == [];
  }

  lemma UniqueFound(db: Db, user: Id, p: Id, seen: Option<Id>)
    requires RowsOk(db) && Found(db, user, p, seen)
    ensures FindSubscription(db.subs, user, p) == seen
  {
  }

  /** The pending updates, seen against the tables with the written row in place. */
  lemma PendingOverlay(db: Db, tx: Tx)
    requires TxInv(db, tx) && tx.pc.Commit? && |tx.pending| == |tx.targets|
    ensures var db1 := db.(subs := db.subs + tx.written);
            (forall p | p in tx.targets :: p in db1.products) && Committing(db, tx) == BumpAll(db1, tx.targets)
  {
    PendingIsBumpAll(db.(subs := db.subs + tx.written), tx.targets, tx.pending);
  }

  lemma MutateCommits(db: Db, tx: Tx)
    requires RowsOk(db) && TxInv(db, tx) && tx.pc.Commit? && tx.cmd.Mutate?
    ensures MutateSubscription(db, tx.cmd.sub, tx.cmd.user, tx.cmd.mutation) == (Committing(db, tx), Committed)
  {
    var s := tx.cmd.sub;
    var db1 := db.(subs := db.subs + tx.written);
    assert db1.subs == db.subs[s := MutatedRow(tx.cmd.mutation, db.subs[s])];
    PendingOverlay(db, tx);
    OneBump(db1, db.subs[s].product);
  }

  /** The row a creation writes, and what it then does about the product. */
  lemma CreatedFrom(db: Db, user: Id, p: Id, min: Price, max: Price, newId: Id, seen: Option<Id>)
    requires FindSubscription(db.subs, user, p) == seen && p in db.products && (seen.None? ==> user in db.users)
    ensures var s := if seen.None? then newId else seen.value;
            var row := if seen.None? then NewRow(user, p, min, max) else RecreatedRow(db.subs[s], min, max);
            var db1 := db.(subs := db.subs[s := row]);
            CreateSubscription(db, user, p, min, max, newId) ==
            (if seen.None? || ResetsAlert(db.subs[s], min, max) || db.subs[s].paused then Bump(db1, p) else db1,
             Committed)
  {
  }

  /** What the pending writes of a creation amount to. */
  lemma CreatePending(db: Db, tx: Tx, db1: Db)
    requires TxInv(db, tx) && tx.pc.Commit? && tx.cmd.Create? && db1 == db.(subs := db.subs + tx.written)
    ensures tx.cmd.product in db.products
    ensures Committing(db, tx) == if |tx.pending| == 1 then Bump(db1, tx.cmd.product) else db1
  {
    assert tx.targets[0] == tx.cmd.product && tx.targets[0] in db.products;
    if |tx.pending| == 1 {
      PendingOverlay(db, tx);
      OneBump(db1, tx.cmd.product);
    }
  }

  lemma CreateCommits(db: Db, tx: Tx)
    requires RowsOk(db) && TxInv(db, tx) && tx.pc.Commit? && tx.cmd.Create?
    ensures CreateSubscription(db, tx.cmd.user, tx.cmd.product, tx.cmd.min, tx.cmd.max, tx.cmd.newId)
            == (Committing(db, tx), Committed)
  {
    UniqueFound(db, tx.cmd.user, tx.cmd.product, tx.seen);
    var row := if tx.seen.None? then NewRow(tx.cmd.user, tx.cmd.product, tx.cmd.min, tx.cmd.max)
               else RecreatedRow(db.subs[tx.seen.value], tx.cmd.min, tx.cmd.max);
    var s := if tx.seen.None? then tx.cmd.newId else tx.seen.value;
    assert db.subs + tx.written == db.subs[s := row];
    CreatePending(db, tx, db.(subs := db.subs[s := row]));
    CreatedFrom(db, tx.cmd.user, tx.cmd.product, tx.cmd.min, tx.cmd.max, tx.cmd.newId, tx.seen);
  }

  lemma ReconcileCommits(db: Db, tx: Tx)
    requires TxInv(db, tx) && tx.pc.Commit? && tx.cmd.Reconcile?
    ensures Committing(db, tx) == BumpAll(db, tx.targets)
  {
    PendingOverlay(db, tx);
    assert db.(subs := db.subs + tx.written) == db;
  }

  lemma EndsEarly(db: Db, tx: Tx)
    requires RowsOk(db) && TxInv(db, tx) && Admissible(db, OpOf(tx)) && Statement(db, tx).Ends? && !tx.pc.Commit?
    ensures Apply(db, OpOf(tx)) == (Statement(db, tx).db, Statement(db, tx).outcome)
  {
    if tx.cmd.Create? && tx.pc.Write? {
      UniqueFound(db, tx.cmd.user, tx.cmd.product, tx.seen);
    }
  }

  /** A command that ends returns, and leaves, exactly what the atomic operation would. */
  lemma EndsAtomically(db: Db, tx: Tx)
    requires RowsOk(db) && TxInv(db, tx) && Admissible(db, OpOf(tx)) && Statement(db, tx).Ends?
    ensures Apply(db, OpOf(tx)) == (Statement(db, tx).db, Statement(db, tx).outcome)
  {
    if !tx.pc.Commit? {
      EndsEarly(db, tx);
    } else {
      match tx.cmd
      case Mutate(_, _, _) => MutateCommits(db, tx);
      case Create(_, _, _, _, _) => CreateCommits(db, tx);
      case Reconcile => ReconcileCommits(db, tx);
    }
  }

  // ─── All interleavings ──────────────────────────────────────────────────────

  /** A transaction owns the locks it has taken. */
  ghost predicate LocksOwned(w: World) {
    forall t, i | t in w.txs && 0 <= i < |w.txs[t].held| && i < |w.txs[t].targets| ::
      w.txs[t].targets[i] in w.owner && w.owner[w.txs[t].targets[i]] == t
  }

  /** Ids handed out to pending creations are unused and different. */
  ghost predicate IdsReserved(w: World) {
    && (forall t | t in w.txs && w.txs[t].cmd.Create? :: w.txs[t].cmd.newId !in w.db.subs)
    && forall t, u | t in w.txs && u in w.txs && t != u && w.txs[t].cmd.Create? ::
         !Reserves(w.txs[u], w.txs[t].cmd.newId)
  }

  ghost predicate WorldInv(w: World) {
    && RowsOk(w.db) && LocksOwned(w) && IdsReserved(w)
    && forall t | t in w.txs :: TxInv(w.db, w.txs[t])
  }

  /** The database is what the logged operations produce one after the other. */
  ghost predicate Serial(init: Db, w: World) {
    AdmissibleRun(init, w.log) && Run(init, w.log) == w.db
  }

  lemma {:induction false} RunSnoc(db: Db, ops: seq<Op>, op: Op)
    requires AdmissibleRun(db, ops) && Admissible(Run(db, ops), op)
    ensures AdmissibleRun(db, ops + [op]) && Run(db, ops + [op]) == Apply(Run(db, ops), op).0
    decreases |ops|
  {
    if ops == [] {
      assert ops + [op] == [op] && [op][1..] == [];
    } else {
      assert (ops + [op])[0] == ops[0] && (ops + [op])[1..] == ops[1..] + [op];
      RunSnoc(Apply(db, ops[0]).0, ops[1..], op);
    }
  }

  /** Rows an operation adds. */
  ghost predicate AddsAtMost(db: Db, db': Db, op: Op) {
    forall s | s in db'.subs && s !in db.subs :: op.Creating? && op.newId == s
  }

  lemma RowsStayOk(db: Db, db': Db)
    requires RowsOk(db) && Persistent(db, db') && db'.subs.Keys == db.subs.Keys
    ensures RowsOk(db')
  {
  }

  lemma CreateRowsOk(db: Db, user: Id, p: Id, min: Price, max: Price, newId: Id)
    requires RowsOk(db) && newId !in db.subs
    ensures RowsOk(CreateSubscription(db, user, p, min, max, newId).0)
    ensures AddsAtMost(db, CreateSubscription(db, user, p, min, max, newId).0, Creating(user, p, min, max, newId))
  {
    CreateFramed(db, user, p, min, max, newId);
    var db' := CreateSubscription(db, user, p, min, max, newId).0;
    if db'.subs.Keys == db.subs.Keys {
      RowsStayOk(db, db');
    } else {
      RowAddedOk(db, newId, NewRow(user, p, min, max));
      assert db'.products.Keys == db.products.Keys;
    }
  }

  lemma RowAddedOk(db: Db, s: Id, row: Sub)
    requires RowsOk(db) && s !in db.subs && row.product in db.products
    requires forall t | t in db.subs :: !OwnedBy(db.subs[t], row.user, row.product)
    ensures RowsOk(db.(subs := db.subs[s := row]))
  {
  }

  lemma OpRowsOk(db: Db, op: Op)
    requires RowsOk(db) && Admissible(db, op)
    ensures RowsOk(Apply(db, op).0) && AddsAtMost(db, Apply(db, op).0, op)
  {
    OpFramed(db, op);
    match op
    case Creating(user, p, min, max, newId) => CreateRowsOk(db, user, p, min, max, newId);
    case Reconciling(ids) => BumpAllFramed(db, ids); RowsStayOk(db, Apply(db, op).0);
    case Mutating(_, _, _) => RowsStayOk(db, Apply(db, op).0);
    case Processing(r) => ResultIsUnrelated(db, r); RowsStayOk(db, Apply(db, op).0);
    case _ => RowsStayOk(db, Apply(db, op).0);
  }

  /** Other transactions do not notice an operation that waited for their locks. */
  lemma OthersSurvive(db: Db, db': Db, tx: Tx, touched: set<Id>)
    requires TxInv(db, tx) && Framed(db, db', touched)
    requires forall i | 0 <= i < |tx.held| :: tx.targets[i] !in touched
    ensures TxInv(db', tx)
  {
    CurrentSurvives(db, db', tx);
    KnowsSurvives(db, db', tx);
  }

  /** An operation on tables whose locks nobody else holds. */
  lemma OpKeepsWorld(w: World, op: Op, db': Db, init: Db)
    requires WorldInv(w) && Serial(init, w) && Admissible(w.db, op) && Apply(w.db, op).0 == db'
    requires Touched(w.db, op) !! w.owner.Keys
    requires op.Creating? ==> IdIsNew(w, op.newId)
    ensures WorldInv(w.(db := db', log := w.log + [op])) && Serial(init, w.(db := db', log := w.log + [op]))
  {
    OpFramed(w.db, op);
    OpRowsOk(w.db, op);
    RunSnoc(init, w.log, op);
    AddsUnreserved(w, op, db');
    forall t | t in w.txs ensures TxInv(db', w.txs[t]) {
      OthersSurvive(w.db, db', w.txs[t], Touched(w.db, op));
    }
  }

  lemma AddsUnreserved(w: World, op: Op, db': Db)
    requires IdsReserved(w) && AddsAtMost(w.db, db', op)
    requires op.Creating? ==> forall t | t in w.txs :: !Reserves(w.txs[t], op.newId)
    ensures IdsReserved(w.(db := db'))
  {
    forall t | t in w.txs && w.txs[t].cmd.Create? ensures w.txs[t].cmd.newId !in db'.subs {
      assert Reserves(w.txs[t], w.txs[t].cmd.newId);
    }
  }

  lemma ReleaseKeeps(w: World, tid: TxId)
    requires WorldInv(w)
    ensures WorldInv(Released(w, tid))
  {
  }

  /** Once its own locks are released, nobody else holds what the transaction touches. */
  lemma OwnLocks(w: World, tid: TxId)
    requires WorldInv(w) && tid in w.txs && w.txs[tid].pc.Commit?
    ensures Admissible(w.db, OpOf(w.txs[tid]))
    ensures Touched(w.db, OpOf(w.txs[tid])) !! Released(w, tid).owner.Keys
    ensures w.txs[tid].cmd.Create? ==> IdIsNew(Released(w, tid), w.txs[tid].cmd.newId)
  {
    var tx := w.txs[tid];
    forall p | p in Touched(w.db, OpOf(tx)) ensures p !in Released(w, tid).owner {
      var i :| 0 <= i < |tx.targets| && tx.targets[i] == p;
      assert w.owner[tx.targets[i]] == tid;
    }
  }

  lemma CommitKeeps(w: World, tid: TxId, init: Db)
    requires WorldInv(w) && Serial(init, w) && tid in w.txs && w.txs[tid].pc.Commit?
    ensures Enabled(w, Advance(tid)) && WorldInv(Do(w, Advance(tid))) && Serial(init, Do(w, Advance(tid)))
  {
    var tx := w.txs[tid];
    OwnLocks(w, tid);
    EndsAtomically(w.db, tx);
    ReleaseKeeps(w, tid);
    OpKeepsWorld(Released(w, tid), OpOf(tx), Committing(w.db, tx), init);
  }

  /** Every way to end before the commit leaves the database as it was. */
  lemma EarlyEndsUnchanged(db: Db, tx: Tx)
    requires !tx.pc.Commit? && Statement(db, tx).Ends?
    ensures Statement(db, tx).db == db && Statement(db, tx).outcome != Committed
  {
  }

  lemma EarlyEndKeeps(w: World, tid: TxId, init: Db)
    requires WorldInv(w) && Serial(init, w) && Enabled(w, Advance(tid))
    requires !w.txs[tid].pc.Commit? && Statement(w.db, w.txs[tid]).Ends?
    ensures WorldInv(Do(w, Advance(tid))) && Serial(init, Do(w, Advance(tid)))
  {
    EarlyEndsUnchanged(w.db, w.txs[tid]);
    assert Do(w, Advance(tid)) == Released(w, tid);
    ReleaseKeeps(w, tid);
  }

  lemma GoingOnKeeps(w: World, tid: TxId, init: Db)
    requires WorldInv(w) && Serial(init, w) && Enabled(w, Advance(tid)) && Statement(w.db, w.txs[tid]).GoesOn?
    ensures WorldInv(Do(w, Advance(tid))) && Serial(init, Do(w, Advance(tid)))
  {
    StatementKeeps(w.db, w.txs[tid]);
    LocksStayOwned(w, tid);
  }

  /** A statement takes at most the lock it waited for. */
  lemma StatementLocks(db: Db, tx: Tx)
    requires Shape(tx) && Statement(db, tx).GoesOn?
    ensures var tx' := Statement(db, tx).tx;
            tx'.cmd == tx.cmd
            && if tx.pc.Lock? then tx'.targets == tx.targets && |tx'.held| == |tx.held| + 1
               else tx'.held == tx.held && (tx.held != [] ==> tx'.targets == tx.targets)
  {
  }

  lemma LocksStayOwned(w: World, tid: TxId)
    requires WorldInv(w) && Enabled(w, Advance(tid)) && Statement(w.db, w.txs[tid]).GoesOn?
    ensures LocksOwned(Do(w, Advance(tid))) && IdsReserved(Do(w, Advance(tid)))
  {
    var tx := w.txs[tid];
    var tx' := Statement(w.db, tx).tx;
    StatementLocks(w.db, tx);
    OneAdvances(w, tid, tx', if tx.pc.Lock? then w.owner[tx.targets[tx.pc.i] := tid] else w.owner);
  }

  lemma OneAdvances(w: World, tid: TxId, tx': Tx, owner': map<Id, TxId>)
    requires LocksOwned(w) && IdsReserved(w) && tid in w.txs && tx'.cmd == w.txs[tid].cmd
    requires w.owner.Keys <= owner'.Keys && forall p | p in w.owner :: owner'[p] == w.owner[p]
    requires forall i | 0 <= i < |tx'.held| && i < |tx'.targets| ::
               tx'.targets[i] in owner' && owner'[tx'.targets[i]] == tid
    ensures LocksOwned(w.(txs := w.txs[tid := tx'], owner := owner'))
    ensures IdsReserved(w.(txs := w.txs[tid := tx'], owner := owner'))
  {
  }

  lemma BeginKeeps(w: World, tid: TxId, cmd: Command, ids: seq<Id>, init: Db)
    requires WorldInv(w) && Serial(init, w) && Enabled(w, Begin(tid, cmd, ids))
    ensures WorldInv(Do(w, Begin(tid, cmd, ids))) && Serial(init, Do(w, Begin(tid, cmd, ids)))
  {
    assert TxInv(w.db, NewTx(cmd, ids));
    BeginReserves(w, tid, cmd, ids);
  }

  lemma BeginReserves(w: World, tid: TxId, cmd: Command, ids: seq<Id>)
    requires LocksOwned(w) && IdsReserved(w) && Enabled(w, Begin(tid, cmd, ids))
    ensures LocksOwned(Do(w, Begin(tid, cmd, ids))) && IdsReserved(Do(w, Begin(tid, cmd, ids)))
  {
    var w' := Do(w, Begin(tid, cmd, ids));
    assert NewTx(cmd, ids).held == [] && NewTx(cmd, ids).cmd == cmd;
    forall t, u | t in w'.txs && u in w'.txs && t != u && w'.txs[t].cmd.Create?
      ensures !Reserves(w'.txs[u], w'.txs[t].cmd.newId)
    {
      if u == tid && cmd.Create? {
        assert Reserves(w.txs[t], w.txs[t].cmd.newId);
      }
    }
  }

  lemma StepKeeps(w: World, a: Action, init: Db)
    requires WorldInv(w) && Serial(init, w) && Enabled(w, a)
    ensures WorldInv(Do(w, a)) && Serial(init, Do(w, a))
  {
    match a
    case Begin(tid, cmd, ids) => BeginKeeps(w, tid, cmd, ids, init);
    case Abort(tid) => ReleaseKeeps(w, tid);
    case Atomic(op) => OpKeepsWorld(w, op, Apply(w.db, op).0, init);
    case Advance(tid) =>
      if w.txs[tid].pc.Commit? {
        CommitKeeps(w, tid, init);
      } else if Statement(w.db, w.txs[tid]).Ends? {
        EarlyEndKeeps(w, tid, init);
      } else {
        GoingOnKeeps(w, tid, init);
      }
  }

  ghost predicate Possible(w: World, actions: seq<Action>)
    decreases |actions|
  {
    actions == [] || (Enabled(w, actions[0]) && Possible(Do(w, actions[0]), actions[1..]))
  }

  ghost function After(w: World, actions: seq<Action>): World
    requires Possible(w, actions)
    decreases |actions|
  {
    if actions == [] then w else After(Do(w, actions[0]), actions[1..])
  }

  lemma {:induction false} ActionsKeep(w: World, actions: seq<Action>, init: Db)
    requires WorldInv(w) && Serial(init, w) && Possible(w, actions)
    ensures WorldInv(After(w, actions)) && Serial(init, After(w, actions))
    decreases |actions|
  {
    if actions != [] {
      StepKeeps(w, actions[0], init);
      ActionsKeep(Do(w, actions[0]), actions[1..], init);
    }
  }

  const START: World := World(EMPTY, map[], map[], [])

  /** Every interleaving of statements, aborts and other operations, from a fresh
      schema on, is equivalent to the serial run of its log, and in all of its
      states the newest snapshot of every product is active iff somebody watches it. */
  lemma Serializable(actions: seq<Action>)
    requires Possible(START, actions)
    ensures Serial(EMPTY, After(START, actions))
    ensures Truthful(After(START, actions).db)
  {
    ActionsKeep(START, actions, EMPTY);
    RunTells(EMPTY, After(START, actions).log);
  }
}
