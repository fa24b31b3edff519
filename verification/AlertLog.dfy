/** Alert state, alert versions and alert events over whole runs: the version
    tells states apart, no alert event is ever swallowed by an older key, and a
    direction is never announced twice without leaving it in between. */
module AlertLog {
  import opened Wrappers
  import opened GatewayDb
  import opened Gateway

  /** The tables, and the alert state every (subscription, version) ever had. */
  datatype Logged = Logged(db: Db, log: map<(Id, nat), Direction>)

  ghost function CurrentStates(subs: map<Id, Sub>): map<(Id, nat), Direction> {
    map s | s in subs :: (s, subs[s].alertVersion) := subs[s].alertState
  }

  ghost function Extended(l: Logged, db': Db): Logged {
    Logged(db', l.log + CurrentStates(db'.subs))
  }

  ghost function Step(l: Logged, op: Op): Logged
    requires Admissible(l.db, op)
  {
    Extended(l, Apply(l.db, op).0)
  }

  ghost predicate AdmissibleRun(l: Logged, ops: seq<Op>)
    decreases |ops|
  {
    ops == [] || (Admissible(l.db, ops[0]) && AdmissibleRun(Step(l, ops[0]), ops[1..]))
  }

  ghost function Run(l: Logged, ops: seq<Op>): Logged
    requires AdmissibleRun(l, ops)
    decreases |ops|
  {
    if ops == [] then l else Run(Step(l, ops[0]), ops[1..])
  }

  // ─── What one transaction does to alert columns and alert events ────────────

  predicate SameAlert(row: Sub, row': Sub) {
    row'.alertState == row.alertState && row'.alertVersion == row.alertVersion
  }

  /** Columns stay, or the version moves by one; new rows start at version 0. */
  ghost predicate ColumnsStep(subs: map<Id, Sub>, subs': map<Id, Sub>) {
    && subs.Keys <= subs'.Keys
    && (forall s | s in subs :: SameAlert(subs[s], subs'[s]) || subs'[s].alertVersion == subs[s].alertVersion + 1)
    && forall s | s in subs' && s !in subs :: subs'[s].alertVersion == 0
  }

  /** A new alert event announces the state its row has just entered. */
  ghost predicate NewAlert(db: Db, db': Db, s: Id, v: nat, e: Event) {
    && s in db.subs && s in db'.subs
    && db'.subs[s].alertVersion == v == db.subs[s].alertVersion + 1
    && e.Notify? && e.direction == db'.subs[s].alertState
    && e.direction != Quiet && db.subs[s].alertState != e.direction
  }

  ghost predicate AlertStep(db: Db, db': Db) {
    && ColumnsStep(db.subs, db'.subs)
    && (forall k | k in db.outbox :: k in db'.outbox && db'.outbox[k] == db.outbox[k])
    && forall s: Id, v: nat | AlertKey(s, v) in db'.outbox && AlertKey(s, v) !in db.outbox ::
         NewAlert(db, db', s, v, db'.outbox[AlertKey(s, v)])
  }

  ghost predicate SameAlerts(db: Db, db': Db) {
    && db'.subs == db.subs
    && (forall k | k in db.outbox :: k in db'.outbox && db'.outbox[k] == db.outbox[k])
    && forall k: Key | k.AlertKey? && k in db'.outbox :: k in db.outbox
  }

  lemma {:induction false} BumpAllSameAlerts(db: Db, ids: seq<Id>)
    requires forall p | p in ids :: p in db.products
    ensures SameAlerts(db, BumpAll(db, ids))
    decreases |ids|
  {
    if ids != [] {
      BumpAllSameAlerts(Bump(db, ids[0]), ids[1..]);
    }
  }

  lemma MutateAlertStep(db: Db, s: Id, user: Id, m: Mutation)
    ensures AlertStep(db, MutateSubscription(db, s, user, m).0)
  {
    if MutateSubscription(db, s, user, m).1 == Committed {
      RowAlertStep(db, s, MutatedRow(m, db.subs[s]), db.subs[s].product);
    }
  }

  /** A row rewritten and its product bumped. */
  lemma RowAlertStep(db: Db, s: Id, row: Sub, p: Id)
    requires s in db.subs && p in db.products
    requires SameAlert(db.subs[s], row) || row.alertVersion == db.subs[s].alertVersion + 1
    ensures AlertStep(db, Bump(db.(subs := db.subs[s := row]), p))
  {
    assert SameAlerts(db.(subs := db.subs[s := row]), Bump(db.(subs := db.subs[s := row]), p));
  }

  lemma CreateAlertStep(db: Db, user: Id, p: Id, min: Price, max: Price, newId: Id)
    requires newId !in db.subs
    ensures AlertStep(db, CreateSubscription(db, user, p, min, max, newId).0)
  {
    match FindSubscription(db.subs, user, p)
    case None =>
    case Some(s) =>
      var row := RecreatedRow(db.subs[s], min, max);
      var db1 := db.(subs := db.subs[s := row]);
      assert ColumnsStep(db.subs, db1.subs);
      if p in db.products {
        assert SameAlerts(db1, Bump(db1, p));
      }
  }

  lemma AlertedStep(db: Db, product: Product, p: Id, price: Price, currency: string)
    ensures AlertStep(db, Alerted(db, product, p, price, currency))
  {
    var ids := AlertRows(db, p);
    var events := AlertEvents(db, product, ids, price, currency);
    forall s: Id, v: nat | AlertKey(s, v) in events
      ensures NewAlert(db, Alerted(db, product, p, price, currency), s, v, events[AlertKey(s, v)])
    {
    }
  }

  lemma RecordedSubs(db: Db, p: Id, r: PriceResult)
    requires r.task.Uuid? && p in db.products
    requires r.success ==> ValidPrice(r.price) && r.scrapedAt.Some?
    ensures var db1 := Recorded(db, p, r); db1.subs == db.subs && db1.outbox == db.outbox && db1.users == db.users
  {
  }

  /** Alerts depend on the subscriptions, the users and the outbox alone. */
  lemma SameBefore(db: Db, db1: Db, db': Db)
    requires db1.subs == db.subs && db1.outbox == db.outbox && db1.users == db.users && AlertStep(db1, db')
    ensures AlertStep(db, db')
  {
    forall s: Id, v: nat | AlertKey(s, v) in db'.outbox && AlertKey(s, v) !in db.outbox
      ensures NewAlert(db, db', s, v, db'.outbox[AlertKey(s, v)])
    {
      assert NewAlert(db1, db', s, v, db'.outbox[AlertKey(s, v)]);
    }
  }

  lemma ReplyAlertStep(db: Db, db': Db, t: Id, reply: Event)
    requires db'.subs == db.subs && db'.outbox == Enqueue(db.outbox, ForceResultKey(t), reply)
    ensures AlertStep(db, db')
  {
  }

  lemma RecordedAlertStep(db: Db, r: PriceResult, db': Db)
    requires ProductRecorded(db, r, db')
    ensures AlertStep(db, db')
  {
    var p := r.product.id;
    var db1 := Recorded(db, p, r);
    RecordedSubs(db, p, r);
    if r.success && db' == Alerted(db1, db.products[p], p, r.price.kopecks, r.currency) {
      AlertedStep(db1, db.products[p], p, r.price.kopecks, r.currency);
      SameBefore(db, db1, db');
    } else if db' != db1 {
      ReplyAlertStep(db, db', r.task.id, ForceReply(db.products[p], r, db.force[r.task.id].chat));
    }
  }

  lemma ResultAlertStep(db: Db, r: PriceResult)
    ensures AlertStep(db, ProcessPriceResult(db, r).0)
  {
    ResultCases(db, r);
    if !LeavesTables(db, ProcessPriceResult(db, r).0) {
      RecordedAlertStep(db, r, ProcessPriceResult(db, r).0);
    }
  }

  lemma IntakeSameAlerts(db: Db, op: Op)
    requires Admissible(db, op)
    requires op.PostingLookup? || op.UpsertingUser? || op.EnsuringProduct? || op.QueueingForce?
    ensures SameAlerts(db, Apply(db, op).0)
  {
  }

  lemma OpAlertStep(db: Db, op: Op)
    requires Admissible(db, op)
    ensures AlertStep(db, Apply(db, op).0)
  {
    match op
    case Creating(user, p, min, max, newId) => CreateAlertStep(db, user, p, min, max, newId);
    case Mutating(s, user, m) => MutateAlertStep(db, s, user, m);
    case Processing(r) => ResultAlertStep(db, r);
    case Reconciling(ids) => BumpAllSameAlerts(db, ids);
    case _ => IntakeSameAlerts(db, op);
  }

  // ─── The log over runs ──────────────────────────────────────────────────────

  /** The log knows every version of every row up to the current one. */
  ghost predicate LogComplete(l: Logged) {
    && (forall s: Id, v: nat :: (s, v) in l.log <==> s in l.db.subs && v <= l.db.subs[s].alertVersion)
    && forall s | s in l.db.subs :: Logs(l.log, s, l.db.subs[s])
  }

  ghost predicate Logs(log: map<(Id, nat), Direction>, s: Id, row: Sub) {
    (s, row.alertVersion) in log && log[(s, row.alertVersion)] == row.alertState
  }

  /** The event at version `v` announces the state entered at `v` and not held at `v - 1`. */
  ghost predicate Announces(log: map<(Id, nat), Direction>, s: Id, v: nat, e: Event) {
    && v >= 1 && e.Notify? && e.direction != Quiet
    && (s, v) in log && log[(s, v)] == e.direction
    && (s, v - 1) in log && log[(s, v - 1)] != e.direction
  }

  ghost predicate AlertsLogged(l: Logged) {
    forall s: Id, v: nat | AlertKey(s, v) in l.db.outbox :: Announces(l.log, s, v, l.db.outbox[AlertKey(s, v)])
  }

  ghost predicate Inv(l: Logged) {
    LogComplete(l) && AlertsLogged(l)
  }

  /** A version already logged keeps its state: the alert state cannot change without a new version. */
  lemma LogOnlyGrows(l: Logged, db': Db)
    requires LogComplete(l) && ColumnsStep(l.db.subs, db'.subs)
    ensures forall k | k in l.log :: k in Extended(l, db').log && Extended(l, db').log[k] == l.log[k]
  {
    var subs, subs' := l.db.subs, db'.subs;
    var now := CurrentStates(subs');
    forall k | k in l.log && k in now ensures now[k] == l.log[k] {
      var (s, v) := k;
      assert s in subs && v <= subs[s].alertVersion && v == subs'[s].alertVersion;
      assert SameAlert(subs[s], subs'[s]);
    }
  }

  lemma CurrentStatesAre(subs: map<Id, Sub>, s: Id, v: nat)
    ensures (s, v) in CurrentStates(subs) <==> s in subs && v == subs[s].alertVersion
    ensures s in subs ==> Logs(CurrentStates(subs), s, subs[s])
  {
    if s in subs {
      assert (s, subs[s].alertVersion) in CurrentStates(subs);
    }
  }

  lemma LogStaysComplete(l: Logged, db': Db)
    requires LogComplete(l) && ColumnsStep(l.db.subs, db'.subs)
    ensures LogComplete(Extended(l, db'))
  {
    var l' := Extended(l, db');
    forall s: Id, v: nat ensures (s, v) in l'.log <==> s in db'.subs && v <= db'.subs[s].alertVersion {
      CurrentStatesAre(db'.subs, s, v);
    }
    forall s | s in db'.subs ensures Logs(l'.log, s, db'.subs[s]) {
      CurrentStatesAre(db'.subs, s, db'.subs[s].alertVersion);
    }
  }

  lemma StepKeepsInv(l: Logged, db': Db)
    requires Inv(l) && AlertStep(l.db, db')
    ensures Inv(Extended(l, db'))
  {
    LogOnlyGrows(l, db');
    LogStaysComplete(l, db');
    var l' := Extended(l, db');
    forall s: Id, v: nat | AlertKey(s, v) in l'.db.outbox
      ensures Announces(l'.log, s, v, l'.db.outbox[AlertKey(s, v)])
    {
      AnnouncedInLog(l, db', s, v);
    }
  }

  lemma AnnouncedInLog(l: Logged, db': Db, s: Id, v: nat)
    requires Inv(l) && AlertStep(l.db, db') && AlertKey(s, v) in db'.outbox
    requires LogComplete(Extended(l, db'))
    requires forall k | k in l.log :: k in Extended(l, db').log && Extended(l, db').log[k] == l.log[k]
    ensures Announces(Extended(l, db').log, s, v, db'.outbox[AlertKey(s, v)])
  {
    if AlertKey(s, v) in l.db.outbox {
      assert Announces(l.log, s, v, l.db.outbox[AlertKey(s, v)]);
    } else {
      assert NewAlert(l.db, db', s, v, db'.outbox[AlertKey(s, v)]);
      assert Logs(l.log, s, l.db.subs[s]) && Logs(Extended(l, db').log, s, db'.subs[s]);
    }
  }

  lemma {:induction false} RunKeepsInv(l: Logged, ops: seq<Op>)
    requires Inv(l) && AdmissibleRun(l, ops)
    ensures Inv(Run(l, ops))
    decreases |ops|
  {
    if ops != [] {
      OpAlertStep(l.db, ops[0]);
      StepKeepsInv(l, Apply(l.db, ops[0]).0);
      RunKeepsInv(Step(l, ops[0]), ops[1..]);
    }
  }

  /** Two events of one subscription with one direction. */
  ghost predicate SameDirection(db: Db, s: Id, v1: nat, v2: nat) {
    && AlertKey(s, v1) in db.outbox && AlertKey(s, v2) in db.outbox
    && db.outbox[AlertKey(s, v1)].Notify? && db.outbox[AlertKey(s, v2)].Notify?
    && db.outbox[AlertKey(s, v1)].direction == db.outbox[AlertKey(s, v2)].direction
  }

  ghost predicate LeftBetween(l: Logged, s: Id, v1: nat, v2: nat) {
    && AlertKey(s, v1) in l.db.outbox && l.db.outbox[AlertKey(s, v1)].Notify?
    && exists v: nat :: v1 < v < v2 && (s, v) in l.log && l.log[(s, v)] != l.db.outbox[AlertKey(s, v1)].direction
  }

  lemma InvSeparates(l: Logged, s: Id, v1: nat, v2: nat)
    requires Inv(l) && v1 < v2 && SameDirection(l.db, s, v1, v2)
    ensures LeftBetween(l, s, v1, v2)
  {
    assert Announces(l.log, s, v1, l.db.outbox[AlertKey(s, v1)])
           && Announces(l.log, s, v2, l.db.outbox[AlertKey(s, v2)]);
    assert v1 < v2 - 1 && (s, v2 - 1) in l.log;
  }

  /** No run ever announces a direction to a subscription twice without a version
      in between at which the subscription was not in that direction. */
  lemma NoRepeatedAlert(ops: seq<Op>, s: Id, v1: nat, v2: nat)
    requires AdmissibleRun(Logged(EMPTY, map[]), ops) && v1 < v2
    ensures var l := Run(Logged(EMPTY, map[]), ops); SameDirection(l.db, s, v1, v2) ==> LeftBetween(l, s, v1, v2)
  {
    var l := Run(Logged(EMPTY, map[]), ops);
    RunKeepsInv(Logged(EMPTY, map[]), ops);
    if SameDirection(l.db, s, v1, v2) {
      InvSeparates(l, s, v1, v2);
    }
  }

  /** No alert event is ahead of its subscription. */
  ghost predicate KeysBehind(db: Db) {
    forall s: Id, v: nat | AlertKey(s, v) in db.outbox :: s in db.subs && v <= db.subs[s].alertVersion
  }

  lemma InvKeepsKeysBehind(l: Logged)
    requires Inv(l)
    ensures KeysBehind(l.db)
  {
    forall s: Id, v: nat | AlertKey(s, v) in l.db.outbox ensures s in l.db.subs && v <= l.db.subs[s].alertVersion {
      assert Announces(l.log, s, v, l.db.outbox[AlertKey(s, v)]);
    }
  }

  /** The log is kept beside a run of the Gateway. */
  lemma {:induction false} SameTables(l: Logged, ops: seq<Op>)
    requires Gateway.AdmissibleRun(l.db, ops)
    ensures AdmissibleRun(l, ops) && Run(l, ops).db == Gateway.Run(l.db, ops)
    decreases |ops|
  {
    if ops != [] {
      SameTables(Step(l, ops[0]), ops[1..]);
    }
  }

  /** After any run the next alert key of every subscription is free. */
  lemma RunKeepsKeysBehind(ops: seq<Op>)
    requires Gateway.AdmissibleRun(EMPTY, ops)
    ensures KeysBehind(Gateway.Run(EMPTY, ops))
  {
    var start := Logged(EMPTY, map[]);
    SameTables(start, ops);
    RunKeepsInv(start, ops);
    InvKeepsKeysBehind(Run(start, ops));
  }
}
