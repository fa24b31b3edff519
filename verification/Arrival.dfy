/** Periodic results in any order of arrival. The alert state ends as the zone of
    the newest price; among results tied for newest the last to arrive decides,
    so the order is irrelevant exactly when the tied results agree. */
module Arrival {
  import opened Wrappers
  import opened GatewayDb
  import opened Results

  // ─── Lists of periodic results ──────────────────────────────────────────────

  /** A successful periodic scrape. */
  datatype Scrape = Scrape(task: Id, product: Id, price: Price, currency: string, at: Time)

  function ResultOf(o: Scrape): PriceResult {
    PriceResult(Uuid(o.task), Empty, Uuid(o.product), "", Finite(o.price), o.currency, Some(o.at), true, "", false)
  }

  /** A known product, a storable price, a task that is neither processed nor a force check. */
  predicate Unprocessed(db: Db, o: Scrape) {
    o.product in db.products && 0 <= o.price < NUMERIC_LIMIT && o.task !in db.force && o.task !in db.processed
  }

  /** No task twice. */
  ghost predicate Distinct(os: seq<Scrape>) {
    && (forall o | o in os :: multiset(os)[o] == 1)
    && forall x, y | x in os && y in os && x.task == y.task :: x == y
  }

  ghost predicate Deliverable(db: Db, os: seq<Scrape>) {
    HistoryInv(db) && Distinct(os) && forall o | o in os :: Unprocessed(db, o)
  }

  function Deliver(db: Db, o: Scrape): Db {
    ProcessPriceResult(db, ResultOf(o)).0
  }

  function DeliverAll(db: Db, os: seq<Scrape>): Db {
    if os == [] then db else Deliver(DeliverAll(db, os[..|os| - 1]), os[|os| - 1])
  }

  // ─── What a list records, and what it leaves alone ──────────────────────────

  predicate SameSettings(row: Sub, row': Sub) {
    row'.(alertState := row.alertState, alertVersion := row.alertVersion) == row
  }

  ghost predicate Untouched(db: Db, db': Db) {
    && db'.users == db.users && db'.force == db.force && db'.products.Keys == db.products.Keys
    && db'.subs.Keys == db.subs.Keys
    && forall s | s in db.subs :: SameSettings(db.subs[s], db'.subs[s])
  }

  function RowFor(o: Scrape): HistoryRow {
    HistoryRow(o.product, o.price, o.currency, o.at, o.task)
  }

  function RowsFor(os: seq<Scrape>): seq<HistoryRow> {
    seq(|os|, i requires 0 <= i < |os| => RowFor(os[i]))
  }

  function TasksOf(os: seq<Scrape>): set<Id> {
    set o | o in os :: o.task
  }

  /** Everything one scrape does to the tables. */
  ghost predicate Scraped(db: Db, o: Scrape, db': Db)
    requires o.product in db.products
  {
    && Untouched(db, db')
    && db'.processed == db.processed + {o.task} && db'.history == db.history + [RowFor(o)]
    && if Stale(db.products[o.product], o.at) then db'.products == db.products && db'.subs == db.subs
       else && db'.products == db.products[o.product := db.products[o.product].(latest := Some(o.at))]
            && forall s | s in db.subs ::
                 db'.subs[s].alertState == if s in AlertRows(db, o.product) then ClassifyFor(db.subs[s], o.price)
                                           else db.subs[s].alertState
  }

  lemma OneScrape(db: Db, o: Scrape)
    requires HistoryInv(db) && Unprocessed(db, o)
    ensures HistoryInv(Deliver(db, o)) && Scraped(db, o, Deliver(db, o))
  {
    NoHistoryConflict(db, o.task);
    ResultKeepsHistory(db, ResultOf(o));
    OneScrapeTables(db, o);
  }

  lemma DeliveredIs(db: Db, o: Scrape)
    requires Unprocessed(db, o) && !HistoryHas(db.history, o.task)
    ensures var p, db1 := o.product, Recorded(db, o.product, ResultOf(o));
            Deliver(db, o) == if Stale(db.products[p], o.at) then db1
                              else Alerted(db1, db.products[p], p, o.price, o.currency)
  {
  }

  lemma AlertedScrape(db: Db, o: Scrape)
    requires Unprocessed(db, o) && !Stale(db.products[o.product], o.at)
    ensures Scraped(db, o, Alerted(Recorded(db, o.product, ResultOf(o)), db.products[o.product], o.product, o.price,
                                   o.currency))
  {
    assert AlertRows(Recorded(db, o.product, ResultOf(o)), o.product) == AlertRows(db, o.product);
  }

  lemma OneScrapeTables(db: Db, o: Scrape)
    requires Unprocessed(db, o) && !HistoryHas(db.history, o.task)
    ensures Scraped(db, o, Deliver(db, o))
  {
    DeliveredIs(db, o);
    if !Stale(db.products[o.product], o.at) {
      AlertedScrape(db, o);
    }
  }

  /** What a list of scrapes records. */
  ghost predicate ListRecorded(db: Db, os: seq<Scrape>, db': Db) {
    && HistoryInv(db') && Untouched(db, db')
    && db'.processed == db.processed + TasksOf(os) && db'.history == db.history + RowsFor(os)
  }

  lemma UntouchedTwice(db: Db, mid: Db, db': Db)
    requires Untouched(db, mid) && Untouched(mid, db')
    ensures Untouched(db, db')
  {
  }

  lemma OneMore(db: Db, os: seq<Scrape>, o: Scrape, mid: Db, db': Db)
    requires ListRecorded(db, os, mid) && o.product in mid.products && Scraped(mid, o, db') && HistoryInv(db')
    ensures ListRecorded(db, os + [o], db')
  {
    UntouchedTwice(db, mid, db');
    RecordsOneMore(os, o);
    assert (db.history + RowsFor(os)) + [RowFor(o)] == db.history + (RowsFor(os) + [RowFor(o)]);
  }

  lemma RecordsOneMore(os: seq<Scrape>, o: Scrape)
    ensures TasksOf(os + [o]) == TasksOf(os) + {o.task} && RowsFor(os + [o]) == RowsFor(os) + [RowFor(o)]
  {
  }

  lemma NextIsUnprocessed(db: Db, os: seq<Scrape>, o: Scrape, mid: Db)
    requires Deliverable(db, os + [o]) && ListRecorded(db, os, mid)
    ensures Unprocessed(mid, o)
  {
    var all := os + [o];
    assert multiset(all) == multiset(os) + multiset{o};
    assert o in all;
    forall x | x in os ensures x.task != o.task {
      assert x in all;
    }
  }

  lemma PrefixDeliverable(db: Db, os: seq<Scrape>, o: Scrape)
    requires Deliverable(db, os + [o])
    ensures Deliverable(db, os)
  {
    assert multiset(os + [o]) == multiset(os) + multiset{o};
    assert forall x | x in os :: x in os + [o];
  }

  // ─── Who decides ────────────────────────────────────────────────────────────

  /** Not older than what the product had before the list. */
  predicate Eligible(db: Db, o: Scrape) {
    o.product in db.products && !Stale(db.products[o.product], o.at)
  }

  /** Eligible, and none of its product is newer. */
  ghost predicate Newest(db: Db, os: seq<Scrape>, p: Id, o: Scrape) {
    && o in os && o.product == p && Eligible(db, o)
    && forall x | x in os && x.product == p :: x.at <= o.at
  }

  /** The newest result that arrives last. */
  ghost predicate Decides(db: Db, os: seq<Scrape>, p: Id, i: int) {
    && 0 <= i < |os| && Newest(db, os, p, os[i])
    && forall j | i < j < |os| && os[j].product == p :: os[j].at < os[i].at
  }

  /** Every subscription the query selects sits in the zone of this price. */
  ghost predicate InZone(db: Db, db': Db, p: Id, price: Price) {
    forall s | s in AlertRows(db, p) :: s in db'.subs && db'.subs[s].alertState == ClassifyFor(db.subs[s], price)
  }

  ghost predicate AlertsKept(db: Db, db': Db, p: Id) {
    forall s | s in AlertRows(db, p) :: s in db'.subs && db'.subs[s].alertState == db.subs[s].alertState
  }

  /** The final state of product `p`, from the list alone. `w` is the deciding index, or -1. */
  ghost predicate Decided(db: Db, os: seq<Scrape>, p: Id, w: int, db': Db)
    requires p in db.products
  {
    && p in db'.products
    && if w >= 0 then Decides(db, os, p, w) && db'.products[p].latest == Some(os[w].at)
                         && InZone(db, db', p, os[w].price)
       else (forall o | o in os && o.product == p :: !Eligible(db, o))
            && db'.products[p].latest == db.products[p].latest && AlertsKept(db, db', p)
  }

  lemma SameRows(db: Db, db': Db, p: Id)
    requires Untouched(db, db')
    ensures AlertRows(db', p) == AlertRows(db, p)
  {
  }

  /** A scrape of the same product, or of another, or a stale one. */
  lemma NextDecides(db: Db, os: seq<Scrape>, o: Scrape, p: Id, w: int, mid: Db, db': Db)
    requires p in db.products && Untouched(db, mid) && o.product in mid.products
    requires Decided(db, os, p, w, mid) && Scraped(mid, o, db')
    ensures Decided(db, os + [o], p, if o.product == p && !Stale(mid.products[p], o.at) then |os| else w, db')
  {
    var all := os + [o];
    SameRows(db, mid, p);
    assert forall x :: x in all <==> x in os || x == o;
    assert forall j | 0 <= j < |os| :: all[j] == os[j];
    if o.product == p && !Stale(mid.products[p], o.at) {
      assert all[|os|] == o;
      assert InZone(db, db', p, o.price);
    } else {
      KeepsDecision(db, os, o, p, w, mid, db');
    }
  }

  lemma KeepsDecision(db: Db, os: seq<Scrape>, o: Scrape, p: Id, w: int, mid: Db, db': Db)
    requires p in db.products && Untouched(db, mid) && o.product in mid.products
    requires Decided(db, os, p, w, mid) && Scraped(mid, o, db')
    requires o.product != p || Stale(mid.products[p], o.at)
    ensures Decided(db, os + [o], p, w, db')
  {
    var all := os + [o];
    SameRows(db, mid, p);
    SameRows(db, mid, o.product);
    assert forall s | s in AlertRows(db, p) :: db'.subs[s].alertState == mid.subs[s].alertState;
    assert forall x :: x in all <==> x in os || x == o;
    assert forall j | 0 <= j < |os| :: all[j] == os[j];
  }

  /** The final state of every product is a function of the list: `latest_result_at`
      and the alert zones come from the newest result, or nothing changed. */
  lemma {:induction false} NewestDecides(db: Db, os: seq<Scrape>, p: Id) returns (w: int)
    requires Deliverable(db, os) && p in db.products
    ensures Decided(db, os, p, w, DeliverAll(db, os))
    ensures ListRecorded(db, os, DeliverAll(db, os))
    decreases |os|
  {
    if os == [] {
      w := -1;
      assert TasksOf(os) == {} && RowsFor(os) == [];
    } else {
      var init, o := os[..|os| - 1], os[|os| - 1];
      assert os == init + [o];
      PrefixDeliverable(db, init, o);
      w := NewestDecides(db, init, p);
      var mid := DeliverAll(db, init);
      NextIsUnprocessed(db, init, o, mid);
      OneScrape(mid, o);
      OneMore(db, init, o, mid, Deliver(mid, o));
      NextDecides(db, init, o, p, w, mid, Deliver(mid, o));
      w := if o.product == p && !Stale(mid.products[p], o.at) then |init| else w;
    }
  }

  // ─── Permutations ───────────────────────────────────────────────────────────

  lemma PermutedDeliverable(db: Db, os: seq<Scrape>, os': seq<Scrape>)
    requires Deliverable(db, os) && multiset(os') == multiset(os)
    ensures Deliverable(db, os') && forall o :: o in os' <==> o in os
  {
    assert forall o :: o in os' <==> o in multiset(os');
  }

  /** Results tied for newest put this subscription in the same zone. */
  ghost predicate TiesAgree(db: Db, os: seq<Scrape>, p: Id, row: Sub) {
    forall x, y | Newest(db, os, p, x) && Newest(db, os, p, y) :: ClassifyFor(row, x.price) == ClassifyFor(row, y.price)
  }

  lemma TiesAgreeSuffices(db: Db, os: seq<Scrape>, os': seq<Scrape>, p: Id, s: Id)
    requires Deliverable(db, os) && multiset(os') == multiset(os)
    requires p in db.products && s in AlertRows(db, p) && TiesAgree(db, os, p, db.subs[s])
    ensures s in DeliverAll(db, os).subs && s in DeliverAll(db, os').subs
    ensures DeliverAll(db, os').subs[s].alertState == DeliverAll(db, os).subs[s].alertState
  {
    PermutedDeliverable(db, os, os');
    var w := NewestDecides(db, os, p);
    var w' := NewestDecides(db, os', p);
    DecidedAlike(db, os, os', p, s, w, w', DeliverAll(db, os), DeliverAll(db, os'));
  }

  /** Two orders of the same results, when ties for newest agree on the zone. */
  lemma DecidedAlike(db: Db, os: seq<Scrape>, os': seq<Scrape>, p: Id, s: Id, w: int, w': int, end: Db, end': Db)
    requires p in db.products && s in AlertRows(db, p) && TiesAgree(db, os, p, db.subs[s])
    requires forall o :: o in os' <==> o in os
    requires Decided(db, os, p, w, end) && Decided(db, os', p, w', end')
    ensures s in end.subs && s in end'.subs && end'.subs[s].alertState == end.subs[s].alertState
  {
    if w >= 0 && w' >= 0 {
      assert Newest(db, os, p, os[w]) && Newest(db, os, p, os'[w']);
    }
  }

  /** The same list with `x` moved to the end. */
  lemma MoveLast(os: seq<Scrape>, x: Scrape) returns (os': seq<Scrape>)
    requires x in os
    ensures os' != [] && os'[|os'| - 1] == x && multiset(os') == multiset(os)
  {
    var i :| 0 <= i < |os| && os[i] == x;
    os' := os[..i] + os[i + 1..] + [x];
    assert os == os[..i] + [x] + os[i + 1..];
  }

  /** If the newest result arrives last, it decides. */
  lemma LastNewestDecides(db: Db, os: seq<Scrape>, p: Id, x: Scrape, s: Id)
    requires Deliverable(db, os) && p in db.products && s in AlertRows(db, p)
    requires os != [] && os[|os| - 1] == x && Newest(db, os, p, x)
    ensures s in DeliverAll(db, os).subs && DeliverAll(db, os).subs[s].alertState == ClassifyFor(db.subs[s], x.price)
  {
    var w := NewestDecides(db, os, p);
    assert w >= 0 && Newest(db, os, p, os[w]);
  }

  /** The state some order of arrival leaves the subscription in. */
  ghost function StateAfter(db: Db, os: seq<Scrape>, s: Id): Direction {
    var db' := DeliverAll(db, os);
    if s in db'.subs then db'.subs[s].alertState else Quiet
  }

  ghost predicate OrderIrrelevant(db: Db, os: seq<Scrape>, s: Id) {
    forall os' | multiset(os') == multiset(os) :: StateAfter(db, os', s) == StateAfter(db, os, s)
  }

  /** The exact condition: the order of arrival is irrelevant to a subscription's
      state iff the results tied for newest put it in the same zone. */
  lemma OrderIrrelevantIffTiesAgree(db: Db, os: seq<Scrape>, p: Id, s: Id)
    requires Deliverable(db, os) && p in db.products && s in AlertRows(db, p)
    ensures OrderIrrelevant(db, os, s) <==> TiesAgree(db, os, p, db.subs[s])
  {
    if TiesAgree(db, os, p, db.subs[s]) {
      forall os' | multiset(os') == multiset(os) ensures StateAfter(db, os', s) == StateAfter(db, os, s) {
        TiesAgreeSuffices(db, os, os', p, s);
      }
    }
    if OrderIrrelevant(db, os, s) {
      forall x | Newest(db, os, p, x) ensures ClassifyFor(db.subs[s], x.price) == StateAfter(db, os, s) {
        var os' := MoveLast(os, x);
        PermutedDeliverable(db, os, os');
        LastNewestDecides(db, os', p, x, s);
        assert StateAfter(db, os', s) == StateAfter(db, os, s);
      }
    }
  }

  /** Distinct timestamps within a product. */
  ghost predicate DistinctTimes(os: seq<Scrape>) {
    forall x, y | x in os && y in os && x.product == y.product && x.at == y.at :: x == y
  }

  function HistorySet(db: Db): set<HistoryRow> {
    set h | h in db.history
  }

  /** What an order of arrival can be observed by, alert versions and events aside. */
  ghost predicate SameOutcome(db1: Db, db2: Db) {
    && db1.processed == db2.processed && HistorySet(db1) == HistorySet(db2)
    && db1.products.Keys == db2.products.Keys
    && (forall p | p in db1.products :: db1.products[p].latest == db2.products[p].latest)
    && db1.subs.Keys == db2.subs.Keys
    && forall s | s in db1.subs :: db1.subs[s].alertState == db2.subs[s].alertState
  }

  /** `latest_result_at` ends at the newest eligible time, if there is any. */
  ghost predicate NewestTime(db: Db, os: seq<Scrape>, p: Id, latest: Option<Time>)
    requires p in db.products
  {
    && (forall o | o in os && o.product == p && Eligible(db, o) :: latest.Some? && o.at <= latest.value)
    && (latest == db.products[p].latest
        || exists o :: o in os && o.product == p && Eligible(db, o) && latest == Some(o.at))
  }

  lemma LatestIsNewest(db: Db, os: seq<Scrape>, p: Id)
    requires Deliverable(db, os) && p in db.products
    ensures p in DeliverAll(db, os).products && NewestTime(db, os, p, DeliverAll(db, os).products[p].latest)
  {
    var w := NewestDecides(db, os, p);
    if w >= 0 {
      assert os[w] in os && Newest(db, os, p, os[w]);
    }
  }

  lemma NewestTimeIsUnique(db: Db, os: seq<Scrape>, os': seq<Scrape>, p: Id, a: Option<Time>, b: Option<Time>)
    requires p in db.products && (forall o :: o in os' <==> o in os)
    requires NewestTime(db, os, p, a) && NewestTime(db, os', p, b)
    ensures a == b
  {
  }

  lemma SameLatest(db: Db, os: seq<Scrape>, os': seq<Scrape>, p: Id)
    requires Deliverable(db, os) && multiset(os') == multiset(os) && p in db.products
    ensures p in DeliverAll(db, os).products && p in DeliverAll(db, os').products
    ensures DeliverAll(db, os').products[p].latest == DeliverAll(db, os).products[p].latest
  {
    PermutedDeliverable(db, os, os');
    LatestIsNewest(db, os, p);
    LatestIsNewest(db, os', p);
    NewestTimeIsUnique(db, os, os', p, DeliverAll(db, os).products[p].latest, DeliverAll(db, os').products[p].latest);
  }

  lemma Recordings(db: Db, os: seq<Scrape>)
    requires Deliverable(db, os)
    ensures ListRecorded(db, os, DeliverAll(db, os))
    decreases |os|
  {
    if os == [] {
      assert TasksOf(os) == {} && RowsFor(os) == [];
    } else {
      assert os[0] in os;
      var w := NewestDecides(db, os, os[0].product);
    }
  }

  /** Rows the query does not select keep their state. */
  lemma {:induction false} UnwatchedKept(db: Db, os: seq<Scrape>, s: Id)
    requires Deliverable(db, os) && s in db.subs && forall p | p in db.products :: s !in AlertRows(db, p)
    ensures s in DeliverAll(db, os).subs && DeliverAll(db, os).subs[s].alertState == db.subs[s].alertState
    decreases |os|
  {
    if os != [] {
      var init, o := os[..|os| - 1], os[|os| - 1];
      assert os == init + [o];
      PrefixDeliverable(db, init, o);
      UnwatchedKept(db, init, s);
      Recordings(db, init);
      var mid := DeliverAll(db, init);
      NextIsUnprocessed(db, init, o, mid);
      OneScrape(mid, o);
      SameRows(db, mid, o.product);
    }
  }

  lemma SameRecordings(db: Db, os: seq<Scrape>, os': seq<Scrape>, db1: Db, db2: Db)
    requires ListRecorded(db, os, db1) && ListRecorded(db, os', db2) && forall o :: o in os' <==> o in os
    ensures db1.processed == db2.processed && HistorySet(db1) == HistorySet(db2)
  {
    assert TasksOf(os) == TasksOf(os');
    RowsIn(os);
    RowsIn(os');
    forall h ensures h in db1.history <==> h in db2.history {
      assert h in db1.history <==> h in db.history || h in RowsFor(os);
      assert h in db2.history <==> h in db.history || h in RowsFor(os');
    }
  }

  lemma RowsIn(os: seq<Scrape>)
    ensures forall h :: h in RowsFor(os) <==> exists o :: o in os && RowFor(o) == h
  {
    forall o | o in os ensures RowFor(o) in RowsFor(os) {
      var i :| 0 <= i < |os| && os[i] == o;
      assert RowsFor(os)[i] == RowFor(o);
    }
  }

  /** Any two orders of arrival of results with distinct tasks and distinct
      timestamps end in the same history, processed set, timestamps and alert states. */
  lemma OrderIndependence(db: Db, os: seq<Scrape>, os': seq<Scrape>)
    requires Deliverable(db, os) && DistinctTimes(os) && multiset(os') == multiset(os)
    ensures SameOutcome(DeliverAll(db, os), DeliverAll(db, os'))
  {
    PermutedDeliverable(db, os, os');
    Recordings(db, os);
    Recordings(db, os');
    SameRecordings(db, os, os', DeliverAll(db, os), DeliverAll(db, os'));
    forall p | p in db.products
      ensures DeliverAll(db, os').products[p].latest == DeliverAll(db, os).products[p].latest {
      SameLatest(db, os, os', p);
    }
    forall s | s in db.subs ensures DeliverAll(db, os').subs[s].alertState == DeliverAll(db, os).subs[s].alertState {
      if p :| p in db.products && s in AlertRows(db, p) {
        TiesAgreeSuffices(db, os, os', p, s);
      } else {
        UnwatchedKept(db, os, s);
        UnwatchedKept(db, os', s);
      }
    }
  }
}
