/** From a page to the tables: what the Extractor read is what the Gateway stores and
    answers, however long the result travels and whatever happens on the way. */
module Relay {
  import opened Wrappers
  import opened System
  import G = GatewayDb
  import Gateway
  import Catalog
  import Results
  import S = SchedulerDb
  import Scheduling
  import Commands
  import Alerting
  import Replies
  import Replica

  // ─── What reachable worlds keep besides ─────────────────────────────────────

  /** The Gateway's tables are those of a run of its own. */
  lemma {:induction false} RunOfGateway(w: World, actions: seq<Action>)
    requires Commands.Reached(w.gw) && Possible(w, actions)
    ensures Commands.Reached(After(w, actions).gw)
    decreases |actions|
  {
    if actions != [] {
      var w1 := Do(w, actions[0]);
      Replica.StepMovesGateway(w, actions[0]);
      if w1.gw != w.gw {
        var op :| Gateway.Admissible(w.gw, op) && w1.gw == Gateway.Apply(w.gw, op).0;
        Commands.OneOpReached(w.gw, op);
      }
      RunOfGateway(w1, actions[1..]);
    }
  }

  lemma NothingReached()
    ensures Commands.Reached(START.gw)
  {
    assert Gateway.AdmissibleRun(G.EMPTY, []) && Gateway.Run(G.EMPTY, []) == G.EMPTY;
  }

  /** A task that says it is forced belongs to a force request. */
  ghost predicate FlagsOk(w: World) {
    && (forall k | k in w.sch.outbox :: w.sch.outbox[k].force ==> w.sch.outbox[k].task in w.gw.force)
    && forall x | x in w.scrape :: x.force ==> x.task in w.gw.force
  }

  lemma GrowingKeepsFlags(w: World, w': World)
    requires FlagsOk(w) && Catalog.Grows(w.gw, w'.gw)
    requires SameTasks(w, w')
    ensures FlagsOk(w')
  {
  }

  lemma TrackKeepsFlags(w: World, m: G.Event, now: Time, newRow: Id, acked: bool)
    requires Inv(w) && FlagsOk(w) && m in w.track
    ensures FlagsOk(HandleTracked(w, m, now, newRow, acked))
  {
    assert FromOutbox(w.gw, m);
    if m.ForceCommand? {
      ForceAccepted(w, m);
      AcceptedForce(w.sch, m);
    } else {
      SnapshotSameOutbox(w.sch, RequestOf(m), now, newRow);
    }
  }

  lemma SnapshotSameOutbox(sch: S.Db, r: S.Request, now: Time, newRow: Id)
    ensures S.ApplySnapshot(sch, r, now, newRow).0.outbox == sch.outbox
  {
  }

  lemma BatchKeepsFlags(w: World, now: Time, batch: seq<Id>, tasks: seq<Id>)
    requires FlagsOk(w) && |tasks| == |batch| && forall p | p in batch :: p in w.sch.rows
    ensures FlagsOk(w.(sch := S.EnqueueDue(w.sch, now, batch, tasks), used := w.used + TaskSet(tasks)))
  {
    Scheduling.EventsOfRows(w.sch.rows, batch, tasks);
    var events := S.BatchEvents(w.sch.rows, batch, tasks);
    forall k | k in events ensures !events[k].force {
      assert Scheduling.OfSomeRow(w.sch.rows, batch, tasks, k, events[k]);
    }
  }

  lemma PublishKeepsFlags(w: World, k: S.Key, marked: bool)
    requires FlagsOk(w) && Enabled(w, PublishScrape(k, marked))
    ensures FlagsOk(Do(w, PublishScrape(k, marked)))
  {
  }

  predicate SameTasks(w: World, w': World) {
    w'.sch.outbox == w.sch.outbox && w'.scrape <= w.scrape
  }

  lemma ScrapeLeavesTasks(w: World, x: S.Task, f: Fetch, at: Time, acked: bool)
    ensures SameTasks(w, Scraped(w, x, f, at, acked))
  {
  }

  lemma ResultLeavesTasks(w: World, r: G.PriceResult, acked: bool)
    ensures SameTasks(w, HandledResult(w, r, acked))
  {
  }

  lemma OthersLeaveTasks(w: World, a: Action)
    requires Enabled(w, a) && !a.HandleTrack? && !a.EnqueueDue? && !a.PublishScrape?
    ensures SameTasks(w, Do(w, a))
  {
    match a
    case Scrape(x, f, at, acked) => ScrapeLeavesTasks(w, x, f, at, acked);
    case HandleResult(r, acked) => ResultLeavesTasks(w, r, acked);
    case GatewayOp(_) =>
    case PublishTrack(_, _) =>
    case LookUp(_, _, _, _) =>
  }

  lemma StepKeepsFlags(w: World, a: Action)
    requires Inv(w) && FlagsOk(w) && Enabled(w, a)
    ensures FlagsOk(Do(w, a))
  {
    match a {
      case HandleTrack(m, now, newRow, acked) => TrackKeepsFlags(w, m, now, newRow, acked);
      case EnqueueDue(now, _, batch, tasks) => BatchKeepsFlags(w, now, batch, tasks);
      case PublishScrape(k, marked) => PublishKeepsFlags(w, k, marked);
      case _ =>
        OthersLeaveTasks(w, a);
        Replica.StepMovesGateway(w, a);
        Replica.MovesGrow(w.gw, Do(w, a).gw);
        GrowingKeepsFlags(w, Do(w, a));
    }
  }

  lemma {:induction false} RunKeepsFlags(w: World, actions: seq<Action>)
    requires Inv(w) && FlagsOk(w) && Possible(w, actions)
    ensures FlagsOk(After(w, actions))
    decreases |actions|
  {
    if actions != [] {
      StepKeeps(w, actions[0]);
      StepKeepsFlags(w, actions[0]);
      RunKeepsFlags(Do(w, actions[0]), actions[1..]);
    }
  }

  lemma ReachableKeeps(w: World)
    requires Reachable(w)
    ensures Inv(w) && FlagsOk(w) && Commands.Reached(w.gw)
  {
    var actions :| Possible(START, actions) && After(START, actions) == w;
    StartIsOk();
    RunKeeps(START, actions);
    RunKeepsFlags(START, actions);
    RunOfGateway(START, actions);
  }

  lemma StartIsOk()
    ensures Inv(START) && FlagsOk(START) && Commands.Reached(START.gw)
  {
    NothingReached();
  }

  // ─── Scrapes ────────────────────────────────────────────────────────────────

  /** The result reports what a page of this task yielded. */
  predicate Reports(r: G.PriceResult, task: Id, f: Fetch, at: Time) {
    && r.task == G.Uuid(task) && r.scrapedAt == Some(at) && (r.success <==> f.Fetched?)
    && match f
       case Failed(error) => r.error == error
       case Fetched(_, price, currency) => r.price == price && r.currency == currency
  }

  predicate ReportsScrape(r: G.PriceResult, x: S.Task, f: Fetch, at: Time) {
    && Reports(r, x.task, f, at) && r.lookup == G.Empty && r.product == G.Uuid(x.product)
    && r.force == x.force && r.name == ""
  }

  /** A page load that can be encoded puts its report into the results queue. */
  lemma ScrapeReports(w: World, x: S.Task, f: Fetch, at: Time, acked: bool) returns (r: G.PriceResult)
    requires Enabled(w, Scrape(x, f, at, acked)) && (f.Fetched? ==> f.price != G.NotFinite)
    ensures ReportsScrape(r, x, f, at)
    ensures Do(w, Scrape(x, f, at, acked)).results == w.results + multiset{r}
    ensures Do(w, Scrape(x, f, at, acked)).gw == w.gw
  {
    r := ResultOf(x.task, G.Empty, G.Uuid(x.product), f, at, x.force);
  }

  /** The price the page named fits the column. */
  predicate Storable(f: Fetch) {
    f.Fetched? ==> f.price.Finite? && f.price.kopecks < 10_000_000_000 * 100
  }

  /** What the Gateway keeps of a page: the price with its currency, time and task. */
  ghost predicate Kept(gw: G.Db, x: S.Task, f: Fetch, at: Time, gw': G.Db) {
    && gw'.processed == gw.processed + {x.task}
    && gw'.history == gw.history + if f.Fetched? && f.price.Finite?
                                   then [G.HistoryRow(x.product, f.price.kopecks, f.currency, at, x.task)] else []
  }

  /** What a force request is told about it, in the chat that asked. */
  ghost predicate Told(gw: G.Db, x: S.Task, f: Fetch, gw': G.Db)
    requires x.task in gw.force && x.product in gw.products
  {
    var product, key := gw.products[x.product], G.ForceResultKey(x.task);
    && key !in gw.outbox && key in gw'.outbox
    && gw'.outbox[key] ==
       G.Notify(gw.force[x.task].chat, G.Quiet,
                match f
                case Failed(error) => G.CheckFailed(product.name, product.url, error)
                case Fetched(_, price, currency) =>
                  G.CurrentPrice(product.name, product.url, if price.Finite? then price.kopecks else 0, currency))
  }

  lemma ReportIsFirst(w: World, r: G.PriceResult, x: S.Task, f: Fetch, at: Time)
    requires ResultOk(w.gw, w.used, r) && ReportsScrape(r, x, f, at)
    requires Plausible(f) && Storable(f) && x.task !in w.gw.processed
    requires x.product in w.gw.products && (x.force ==> x.task in w.gw.force)
    ensures Replies.First(w.gw, r)
  {
  }

  lemma RecordsIsKept(gw: G.Db, r: G.PriceResult, x: S.Task, f: Fetch, at: Time, gw': G.Db)
    requires ReportsScrape(r, x, f, at) && Storable(f) && Replies.First(gw, r) && Replies.Records(gw, r, gw')
    ensures Kept(gw, x, f, at, gw')
  {
  }

  lemma AnswerIsTold(gw: G.Db, r: G.PriceResult, x: S.Task, f: Fetch, at: Time, gw': G.Db)
    requires ReportsScrape(r, x, f, at) && Storable(f) && Replies.Answers(gw, r)
    requires G.ForceResultKey(x.task) !in gw.outbox
    requires gw'.outbox == gw.outbox[G.ForceResultKey(x.task) := Replies.Reply(gw, r)]
    ensures Told(gw, x, f, gw')
  {
  }

  /** The first result of a task that the Gateway handles is kept, whatever it reports, and
      told to whoever asked for it. */
  lemma ReportIsKept(w: World, r: G.PriceResult, x: S.Task, f: Fetch, at: Time)
    requires Inv(w) && Commands.Reached(w.gw) && r in w.results && ReportsScrape(r, x, f, at)
    requires Plausible(f) && Storable(f) && x.task !in w.gw.processed
    requires x.product in w.gw.products && (x.force ==> x.task in w.gw.force)
    ensures var (gw', outcome) := G.ProcessPriceResult(w.gw, r);
            && outcome == G.Committed && Kept(w.gw, x, f, at, gw')
            && (x.task in w.gw.force ==> Told(w.gw, x, f, gw'))
  {
    assert ResultOk(w.gw, w.used, r);
    ReportIsFirst(w, r, x, f, at);
    FirstIsRecorded(w.gw, r);
    RecordsIsKept(w.gw, r, x, f, at, G.ProcessPriceResult(w.gw, r).0);
    if x.task in w.gw.force {
      Replies.ForceIsAnswered(w.gw, r);
      AnswerIsTold(w.gw, r, x, f, at, G.ProcessPriceResult(w.gw, r).0);
    }
  }

  lemma FirstIsRecorded(db: G.Db, r: G.PriceResult)
    requires Commands.Reached(db) && Replies.First(db, r)
    ensures var (db', outcome) := G.ProcessPriceResult(db, r);
            outcome == G.Committed && Replies.Records(db, r, db')
  {
    if r.task.id in db.force {
      Replies.ForceIsAnswered(db, r);
    } else if Alerting.Timely(db, r) {
      Replies.TimelyIsRecorded(db, r);
      Replies.OutcomeIsExact(db, r);
    } else {
      Replies.OthersAreRecorded(db, r);
    }
  }

  /** If the Gateway handles `r` next, and as the first result of its task, the page is in
      the history with its price, currency and time; and if somebody asked for it, its
      price or its error is on the way to the chat that asked. */
  ghost predicate KeptWhenHandled(w: World, r: G.PriceResult, x: S.Task, f: Fetch, at: Time) {
    r in w.results && x.task !in w.gw.processed ==>
      && x.product in w.gw.products
      && var w' := Do(w, HandleResult(r, true));
      && w'.results == w.results - multiset{r} && Kept(w.gw, x, f, at, w'.gw)
      && (x.task in w.gw.force ==> Told(w.gw, x, f, w'.gw))
  }

  lemma CommittedIsHandled(w: World, r: G.PriceResult)
    requires r in w.results && G.ProcessPriceResult(w.gw, r).1 == G.Committed
    ensures Do(w, HandleResult(r, true)) ==
            w.(gw := G.ProcessPriceResult(w.gw, r).0, results := w.results - multiset{r})
  {
  }

  lemma KeptAt(w: World, r: G.PriceResult, x: S.Task, f: Fetch, at: Time)
    requires Inv(w) && Commands.Reached(w.gw) && ReportsScrape(r, x, f, at) && Plausible(f) && Storable(f)
    requires x.product in w.gw.products && (x.force ==> x.task in w.gw.force)
    ensures KeptWhenHandled(w, r, x, f, at)
  {
    if r in w.results && x.task !in w.gw.processed {
      ReportIsKept(w, r, x, f, at);
      CommittedIsHandled(w, r);
    }
  }

  /** End to end: a page loaded at some time is reported as it was, and however the system
      runs on, the report is kept and told when it is handled. */
  lemma ScrapeIsKept(w: World, x: S.Task, f: Fetch, at: Time, acked: bool, actions: seq<Action>)
    returns (r: G.PriceResult)
    requires Reachable(w) && Enabled(w, Scrape(x, f, at, acked)) && Storable(f)
    requires Possible(Do(w, Scrape(x, f, at, acked)), actions)
    ensures ReportsScrape(r, x, f, at) && r in Do(w, Scrape(x, f, at, acked)).results
    ensures KeptWhenHandled(After(Do(w, Scrape(x, f, at, acked)), actions), r, x, f, at)
  {
    r := ScrapeReports(w, x, f, at, acked);
    KnownTask(w, x);
    StepKeeps(w, Scrape(x, f, at, acked));
    TaskStaysKnown(Do(w, Scrape(x, f, at, acked)), x, actions);
    KeptAt(After(Do(w, Scrape(x, f, at, acked)), actions), r, x, f, at);
  }

  lemma KnownTask(w: World, x: S.Task)
    requires Reachable(w) && x in w.scrape
    ensures Inv(w) && Commands.Reached(w.gw)
    ensures x.product in w.gw.products && (x.force ==> x.task in w.gw.force)
  {
    ReachableKeeps(w);
    assert TaskOk(w.gw, w.used, x);
  }

  lemma TaskStaysKnown(w: World, x: S.Task, actions: seq<Action>)
    requires Inv(w) && Commands.Reached(w.gw) && Possible(w, actions)
    requires x.product in w.gw.products && (x.force ==> x.task in w.gw.force)
    ensures var w' := After(w, actions);
            Inv(w') && Commands.Reached(w'.gw) && x.product in w'.gw.products && (x.force ==> x.task in w'.gw.force)
  {
    RunKeeps(w, actions);
    RunOfGateway(w, actions);
    Replica.RunGrows(w, actions);
  }

  // ─── Lookups ────────────────────────────────────────────────────────────────

  predicate ReportsLookup(r: G.PriceResult, task: Id, lookup: Id, f: Fetch, at: Time) {
    && Reports(r, task, f, at) && r.lookup == G.Uuid(lookup) && r.product == G.Empty && !r.force
    && r.name == if f.Fetched? then f.name else ""
  }

  lemma LookupReports(w: World, task: Id, lookup: Id, f: Fetch, at: Time) returns (r: G.PriceResult)
    requires Enabled(w, LookUp(task, lookup, f, at)) && (f.Fetched? ==> f.price != G.NotFinite)
    ensures ReportsLookup(r, task, lookup, f, at)
    ensures Do(w, LookUp(task, lookup, f, at)).results == w.results + multiset{r}
  {
    r := ResultOf(task, G.Uuid(lookup), G.Empty, f, at, false);
  }

  /** End to end: the first result of a lookup settles it with the name and the price of
      the page, or with its error. */
  lemma LookupIsSettled(w: World, task: Id, lookup: Id, f: Fetch, at: Time, actions: seq<Action>)
    returns (r: G.PriceResult)
    requires Enabled(w, LookUp(task, lookup, f, at)) && Storable(f)
    requires Possible(Do(w, LookUp(task, lookup, f, at)), actions)
    ensures ReportsLookup(r, task, lookup, f, at) && r in Do(w, LookUp(task, lookup, f, at)).results
    ensures var w2 := After(Do(w, LookUp(task, lookup, f, at)), actions);
            r in w2.results && task !in w2.gw.processed && lookup in w2.gw.lookups ==>
              && Enabled(w2, HandleResult(r, true))
              && var w3 := Do(w2, HandleResult(r, true));
              && lookup in w3.gw.lookups && w3.gw.lookups[lookup].url == w2.gw.lookups[lookup].url
              && w3.gw.lookups[lookup].status ==
                 match f
                 case Failed(error) => G.LookupStatus.Failed(error)
                 case Fetched(name, price, _) => G.Done(name, if price.Finite? then price.kopecks else 0)
  {
    r := LookupReports(w, task, lookup, f, at);
    var w2 := After(Do(w, LookUp(task, lookup, f, at)), actions);
    if r in w2.results && task !in w2.gw.processed && lookup in w2.gw.lookups {
      ReportSettles(w2.gw, r, task, lookup, f, at);
    }
  }

  lemma ReportSettles(gw: G.Db, r: G.PriceResult, task: Id, lookup: Id, f: Fetch, at: Time)
    requires ReportsLookup(r, task, lookup, f, at) && Plausible(f) && Storable(f)
    requires task !in gw.processed && lookup in gw.lookups
    ensures var (gw', outcome) := G.ProcessPriceResult(gw, r);
            && outcome == G.Committed && lookup in gw'.lookups
            && gw'.lookups[lookup].url == gw.lookups[lookup].url
            && gw'.lookups[lookup].status ==
               match f
               case Failed(error) => G.LookupStatus.Failed(error)
               case Fetched(name, price, _) => G.Done(name, if price.Finite? then price.kopecks else 0)
  {
    Results.LookupSettledOnce(gw, r);
    Catalog.ResultSameUrls(gw, r);
    LookupFits(gw, r);
  }

  lemma LookupFits(gw: G.Db, r: G.PriceResult)
    requires Replies.WellFormed(r) && r.lookup != G.Empty && !Replies.TooLarge(r)
    ensures G.ProcessPriceResult(gw, r).1 == G.Committed
  {
    Replies.LookupOutcome(gw, r);
  }
}
