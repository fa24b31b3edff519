/** Gateway, Scheduler and Extractor together, over at-least-once queues.

    A queue is the multiset of its ready and unacknowledged messages: any message
    may be handled at any time, any number of times, and disappears only when it
    is acknowledged or dropped. Publishing may or may not reach the mark in the
    outbox, handling may or may not reach the acknowledgement, and any step may
    fail to happen at all; so crashes, redelivery and reordering are all runs. */
module System {
  import opened Wrappers
  import G = GatewayDb
  import Gateway
  import Catalog
  import S = SchedulerDb
  import Platform

  type Id = nat
  type Time = int

  /** `used`: every task id handed out so far. `applied`: the snapshots the
      Scheduler has committed at least once. Both only record what happened. */
  datatype World = World(gw: G.Db, gwSent: set<G.Key>, track: multiset<G.Event>,
                         sch: S.Db, schSent: set<S.Key>, scrape: multiset<S.Task>,
                         results: multiset<G.PriceResult>, lookupTasks: set<Id>,
                         used: set<Id>, applied: set<(Id, nat)>)

  const START: World := World(G.EMPTY, {}, multiset{}, S.Db(map[], {}, map[]), {}, multiset{}, multiset{}, {}, {}, {})

  /** A page load either fails or yields a price; it never yields a negative one. */
  datatype Fetch = Failed(error: string) | Fetched(name: string, price: G.RawPrice, currency: string)

  predicate Plausible(f: Fetch) {
    f.Fetched? && f.price.Finite? ==> f.price.kopecks >= 0
  }

  datatype Action =
    | GatewayOp(op: Gateway.Op)
    | PublishTrack(key: G.Key, marked: bool)
    | HandleTrack(m: G.Event, now: Time, newRow: Id, acked: bool)
    | EnqueueDue(now: Time, locked: set<Id>, batch: seq<Id>, tasks: seq<Id>)
    | PublishScrape(task: S.Key, marked: bool)
    | Scrape(x: S.Task, fetch: Fetch, at: Time, acked: bool)
    | LookUp(id: Id, lookup: Id, fetch: Fetch, at: Time)
    | HandleResult(r: G.PriceResult, acked: bool)

  // ─── Messages ───────────────────────────────────────────────────────────────

  function RequestOf(e: G.Event): S.Request {
    match e
    case Snapshot(p, url, version, active, hours) =>
      S.Request(true, Some(0), Some(p), url, "wb", version, active, hours, 0)
    case ForceCommand(t, p, url, chat) => S.Request(false, Some(t), Some(p), url, "wb", 0, false, 0, chat)
    case _ => S.Request(false, None, None, "", "", 0, false, 0, 0)
  }

  /** Only a lookup reports the name. */
  function ResultOf(task: Id, lookup: G.RawId, product: G.RawId, f: Fetch, at: Time, force: bool): G.PriceResult {
    match f
    case Failed(error) => G.PriceResult(G.Uuid(task), lookup, product, "", G.Finite(0), "", Some(at), false, error,
                                        force)
    case Fetched(name, price, currency) =>
      G.PriceResult(G.Uuid(task), lookup, product,
                    if lookup == G.Empty then "" else name, price, currency, Some(at), true,
                    "", force)
  }

  /** JSON has no NaN or infinity: publishing such a result fails. */
  predicate Encodable(f: Fetch) {
    f.Fetched? ==> f.price.Finite?
  }

  function Without<T>(queue: multiset<T>, m: T, acked: bool): multiset<T> {
    if acked then queue - multiset{m} else queue
  }

  // ─── Steps ──────────────────────────────────────────────────────────────────

  function NewTasks(op: Gateway.Op): set<Id> {
    match op
    case QueueingForce(_, _, _, task) => {task}
    case PostingLookup(_, _, task) => {task}
    case _ => {}
  }

  predicate IsTrack(e: G.Event) {
    e.Snapshot? || e.ForceCommand?
  }

  ghost predicate Enabled(w: World, a: Action) {
    match a
    case GatewayOp(op) => Gateway.Admissible(w.gw, op) && !op.Processing? && NewTasks(op) !! w.used
    case PublishTrack(k, _) => k in w.gw.outbox && k !in w.gwSent && (k.TrackKey? || k.ForceKey?)
    case HandleTrack(m, _, _, _) => m in w.track
    case EnqueueDue(now, locked, batch, tasks) =>
      && S.IsBatch(w.sch.rows, now, locked, batch) && |tasks| == |batch|
      && (forall i, j | 0 <= i < j < |tasks| :: tasks[i] != tasks[j])
      && forall t | t in tasks :: t !in w.used
    case PublishScrape(k, _) => k in w.sch.outbox && k !in w.schSent
    case Scrape(x, f, _, _) => x in w.scrape && Plausible(f)
    case LookUp(t, _, f, _) => t in w.lookupTasks && Plausible(f)
    case HandleResult(r, _) => r in w.results
  }

  function HandleTracked(w: World, m: G.Event, now: Time, newRow: Id, acked: bool): World {
    var (sch', outcome) := if m.Snapshot? then S.ApplySnapshot(w.sch, RequestOf(m), now, newRow)
                           else S.EnqueueForce(w.sch, RequestOf(m));
    match outcome
    case DbError => w
    case Invalid => w.(track := Without(w.track, m, acked))
    case Committed =>
      w.(sch := sch', track := Without(w.track, m, acked),
         applied := if m.Snapshot? then w.applied + {(m.product, m.version)} else w.applied)
  }

  function HandledResult(w: World, r: G.PriceResult, acked: bool): World {
    var (gw', outcome) := G.ProcessPriceResult(w.gw, r);
    if outcome == G.DbError then w
    else w.(gw := gw', results := Without(w.results, r, acked))
  }

  function Scraped(w: World, x: S.Task, f: Fetch, at: Time, acked: bool): World {
    if !Encodable(f) then w
    else w.(results := w.results + multiset{ResultOf(x.task, G.Empty, G.Uuid(x.product), f, at, x.force)},
            scrape := Without(w.scrape, x, acked))
  }

  function TaskSet(tasks: seq<Id>): set<Id> {
    set t | t in tasks
  }

  ghost function Do(w: World, a: Action): World
    requires Enabled(w, a)
  {
    match a
    case GatewayOp(op) =>
      w.(gw := Gateway.Apply(w.gw, op).0, used := w.used + NewTasks(op),
         lookupTasks := if op.PostingLookup? then w.lookupTasks + {op.task} else w.lookupTasks)
    case PublishTrack(k, marked) =>
      w.(track := w.track + multiset{w.gw.outbox[k]}, gwSent := if marked then w.gwSent + {k} else w.gwSent)
    case HandleTrack(m, now, newRow, acked) => HandleTracked(w, m, now, newRow, acked)
    case EnqueueDue(now, locked, batch, tasks) =>
      w.(sch := S.EnqueueDue(w.sch, now, batch, tasks), used := w.used + TaskSet(tasks))
    case PublishScrape(k, marked) =>
      w.(scrape := w.scrape + multiset{w.sch.outbox[k]}, schSent := if marked then w.schSent + {k} else w.schSent)
    case Scrape(x, f, at, acked) => Scraped(w, x, f, at, acked)
    case LookUp(t, lookup, f, at) =>
      if !Encodable(f) then w
      else w.(results := w.results + multiset{ResultOf(t, G.Uuid(lookup), G.Empty, f, at, false)})
    case HandleResult(r, acked) => HandledResult(w, r, acked)
  }

  // ─── Well-formed worlds ─────────────────────────────────────────────────────

  /** The key under which a track event was enqueued. */
  function KeyOf(e: G.Event): G.Key
    requires IsTrack(e)
  {
    if e.Snapshot? then G.TrackKey(e.product, e.version) else G.ForceKey(e.task)
  }

  /** A message in flight is the payload of its outbox row. */
  ghost predicate FromOutbox(gw: G.Db, e: G.Event) {
    IsTrack(e) && KeyOf(e) in gw.outbox && gw.outbox[KeyOf(e)] == e
  }

  /** A scrape task names a known product; a forced one the product of its request. */
  ghost predicate TaskOk(gw: G.Db, used: set<Id>, x: S.Task) {
    x.product in gw.products && x.task in used && (x.task in gw.force ==> x.product == gw.force[x.task].product)
  }

  /** A result of a forced task is one the Gateway will answer. */
  ghost predicate ResultOk(gw: G.Db, used: set<Id>, r: G.PriceResult) {
    && r.task.Uuid? && r.task.id in used
    && (r.task.id in gw.force ==>
          && r.lookup == G.Empty && r.product == G.Uuid(gw.force[r.task.id].product)
          && (r.success ==> G.ValidPrice(r.price) && r.scrapedAt.Some?))
  }

  ghost predicate MessagesOk(w: World) {
    && (forall e | e in w.track :: FromOutbox(w.gw, e))
    && (forall x | x in w.scrape :: TaskOk(w.gw, w.used, x))
    && (forall r | r in w.results :: ResultOk(w.gw, w.used, r))
  }

  ghost predicate IdsOk(w: World) {
    && (forall t | t in w.gw.force :: t in w.used && t !in w.lookupTasks)
    && w.gw.processed <= w.used && w.lookupTasks <= w.used
  }

  /** A replica row shows the state announced by the snapshot it has last applied. */
  ghost predicate RowOk(gw: G.Db, p: Id, row: S.Row) {
    && p in gw.products && row.url == gw.products[p].url && row.interval > 0
    && G.TrackKey(p, row.version) in gw.outbox
    && gw.outbox[G.TrackKey(p, row.version)].Snapshot? && gw.outbox[G.TrackKey(p, row.version)].active == row.active
  }

  ghost predicate ReplicaOk(w: World) {
    && (forall p | p in w.sch.rows :: RowOk(w.gw, p, w.sch.rows[p]))
    && forall p: Id, v: nat | (p, v) in w.applied :: p in w.sch.rows && v <= w.sch.rows[p].version
  }

  ghost predicate ForcedOk(w: World) {
    && (forall t: Id :: t in w.sch.forced <==> S.Forced(t) in w.sch.outbox)
    && (forall t | t in w.sch.forced :: t in w.gw.force)
    && (forall k | k in w.sch.outbox :: TaskOk(w.gw, w.used, w.sch.outbox[k]) && w.sch.outbox[k].task == k.task)
    && w.schSent <= w.sch.outbox.Keys && w.gwSent <= w.gw.outbox.Keys
  }

  ghost predicate GatewayOk(gw: G.Db) {
    Gateway.Truthful(gw) && Catalog.UrlsOk(gw) && Catalog.ForceOk(gw)
  }

  // ─── Conservation of force requests ─────────────────────────────────────────

  /** Not yet accepted by the Scheduler: in the Gateway's outbox or in the queue. */
  ghost predicate Upstream(w: World, t: Id) {
    G.ForceKey(t) in w.gw.outbox && (G.ForceKey(t) !in w.gwSent || w.gw.outbox[G.ForceKey(t)] in w.track)
  }

  ghost predicate Scraping(w: World, t: Id) {
    exists x :: x in w.scrape && x.task == t
  }

  ghost predicate Reporting(w: World, t: Id) {
    exists r :: r in w.results && r.task == G.Uuid(t)
  }

  /** Accepted by the Scheduler and not yet answered. */
  ghost predicate Downstream(w: World, t: Id) {
    (S.Forced(t) in w.sch.outbox && S.Forced(t) !in w.schSent) || Scraping(w, t) || Reporting(w, t)
  }

  ghost predicate Conserved(w: World) {
    forall t | t in w.gw.force ::
      if t in w.sch.forced then t in w.gw.processed || Downstream(w, t) else Upstream(w, t)
  }

  ghost predicate Inv(w: World) {
    GatewayOk(w.gw) && IdsOk(w) && MessagesOk(w) && ReplicaOk(w) && ForcedOk(w) && Conserved(w)
  }

  // ─── The Gateway moves ──────────────────────────────────────────────────────

  /** The Gateway's tables grow; requests that were not there before have new task ids. */
  ghost predicate GatewayStep(w: World, gw': G.Db, used': set<Id>) {
    && Catalog.Grows(w.gw, gw') && w.used <= used'
    && forall t | t in gw'.force && t !in w.gw.force :: t !in w.used
  }

  /** Only the Gateway's tables, the ids drawn and the queued lookups have changed. */
  ghost predicate OnlyGateway(w: World, w': World) {
    w' == w.(gw := w'.gw, used := w'.used, lookupTasks := w'.lookupTasks, results := w'.results)
  }

  lemma GatewayStepKeeps(w: World, w': World)
    requires MessagesOk(w) && ReplicaOk(w) && ForcedOk(w) && GatewayStep(w, w'.gw, w'.used)
    requires OnlyGateway(w, w') && w'.results <= w.results
    ensures MessagesOk(w') && ReplicaOk(w') && ForcedOk(w')
  {
    MessagesStayOk(w, w');
    RowsStayOk(w, w');
    TasksStayOk(w, w');
  }

  lemma MessagesStayOk(w: World, w': World)
    requires MessagesOk(w) && GatewayStep(w, w'.gw, w'.used)
    requires w'.track <= w.track && w'.scrape <= w.scrape && w'.results <= w.results
    ensures MessagesOk(w')
  {
    forall e | e in w'.track ensures FromOutbox(w'.gw, e) {
      assert FromOutbox(w.gw, e);
    }
    forall x | x in w'.scrape ensures TaskOk(w'.gw, w'.used, x) {
      assert TaskOk(w.gw, w.used, x);
    }
    forall r | r in w'.results ensures ResultOk(w'.gw, w'.used, r) {
      assert ResultOk(w.gw, w.used, r);
    }
  }

  lemma RowsStayOk(w: World, w': World)
    requires ReplicaOk(w) && Catalog.Grows(w.gw, w'.gw) && w'.sch.rows == w.sch.rows && w'.applied == w.applied
    ensures ReplicaOk(w')
  {
    forall p | p in w'.sch.rows ensures RowOk(w'.gw, p, w'.sch.rows[p]) {
      assert RowOk(w.gw, p, w.sch.rows[p]);
    }
  }

  lemma TasksStayOk(w: World, w': World)
    requires ForcedOk(w) && GatewayStep(w, w'.gw, w'.used)
    requires w'.sch == w.sch && w'.schSent == w.schSent && w'.gwSent == w.gwSent
    ensures ForcedOk(w')
  {
    forall k | k in w'.sch.outbox ensures TaskOk(w'.gw, w'.used, w'.sch.outbox[k]) {
      assert TaskOk(w.gw, w.used, w.sch.outbox[k]);
    }
  }

  lemma OpKeepsGateway(gw: G.Db, op: Gateway.Op)
    requires GatewayOk(gw) && Gateway.Admissible(gw, op)
    requires op.Processing? ==> !Catalog.Mislabelled(gw, op.result)
    ensures GatewayOk(Gateway.Apply(gw, op).0) && Catalog.Grows(gw, Gateway.Apply(gw, op).0)
  {
    Gateway.OpTells(gw, op);
    Catalog.OpUrls(gw, op);
    Catalog.OpForceOk(gw, op);
    Catalog.OpGrows(gw, op);
  }

  /** Only `QueueForce` adds requests, and only results add processed marks. */
  lemma OpRequests(gw: G.Db, op: Gateway.Op)
    requires Gateway.Admissible(gw, op) && !op.Processing?
    ensures var gw' := Gateway.Apply(gw, op).0;
            gw'.processed == gw.processed
            && forall t | t in gw'.force && t !in gw.force :: op.QueueingForce? && t == op.task
  {
    if op.Reconciling? {
      Catalog.BumpAllSameForce(gw, op.ids);
    }
  }

  /** A Gateway operation other than a result: new requests, and new lookups, have new ids. */
  ghost predicate Intake(w: World, gw': G.Db, requests: set<Id>, lookups: set<Id>) {
    && Catalog.Grows(w.gw, gw') && GatewayOk(gw') && gw'.processed == w.gw.processed
    && (forall t | t in gw'.force && t !in w.gw.force :: t in requests)
    && requests !! w.used && lookups !! w.used && requests !! lookups
  }

  lemma IntakeKeeps(w: World, w': World, requests: set<Id>, lookups: set<Id>)
    requires Inv(w) && Intake(w, w'.gw, requests, lookups)
    requires w' == w.(gw := w'.gw, used := w.used + requests + lookups, lookupTasks := w.lookupTasks + lookups)
    ensures Inv(w')
  {
    GatewayStepKeeps(w, w');
    assert IdsOk(w');
    NewRequestsConserved(w, w', requests);
  }

  lemma NewRequestsConserved(w: World, w': World, requests: set<Id>)
    requires Inv(w) && Catalog.Grows(w.gw, w'.gw) && Catalog.ForceOk(w'.gw) && requests !! w.used
    requires OnlyGateway(w, w') && w'.results == w.results && w'.gw.processed == w.gw.processed
    requires forall t | t in w'.gw.force && t !in w.gw.force :: t in requests
    ensures Conserved(w')
  {
    forall t | t in w'.gw.force && t !in w.gw.force ensures t !in w.sch.forced && Upstream(w', t) {
      NewRequestUpstream(w, w', t);
    }
    OldRequestsConserved(w, w');
  }

  lemma NewRequestUpstream(w: World, w': World, t: Id)
    requires Catalog.ForceOk(w.gw) && Catalog.ForceOk(w'.gw) && ForcedOk(w)
    requires w'.gwSent == w.gwSent && t in w'.gw.force && t !in w.gw.force
    ensures t !in w.sch.forced && Upstream(w', t)
  {
    assert Catalog.RequestOk(w'.gw, t);
    assert G.ForceKey(t) !in w.gw.outbox;
  }

  lemma OldRequestsConserved(w: World, w': World)
    requires Conserved(w) && ForcedOk(w) && Catalog.Grows(w.gw, w'.gw)
    requires OnlyGateway(w, w') && w'.results == w.results
    ensures forall t | t in w.gw.force && t !in w.sch.forced :: Upstream(w', t)
    ensures forall t | t in w.sch.forced :: t in w'.gw.processed || Downstream(w', t)
  {
    forall t | t in w.gw.force && t !in w.sch.forced ensures Upstream(w', t) {
      assert Upstream(w, t);
    }
    forall t | t in w.sch.forced ensures t in w'.gw.processed || Downstream(w', t) {
      assert t in w.gw.force;
      assert t in w.gw.processed || Downstream(w, t);
    }
  }

  function Requested(op: Gateway.Op): set<Id> {
    if op.QueueingForce? then {op.task} else {}
  }

  function LookedUp(op: Gateway.Op): set<Id> {
    if op.PostingLookup? then {op.task} else {}
  }

  lemma OpIsIntake(w: World, op: Gateway.Op)
    requires Inv(w) && Gateway.Admissible(w.gw, op) && !op.Processing? && NewTasks(op) !! w.used
    ensures Intake(w, Gateway.Apply(w.gw, op).0, Requested(op), LookedUp(op))
  {
    OpKeepsGateway(w.gw, op);
    OpRequests(w.gw, op);
  }

  lemma GatewayOpKeeps(w: World, op: Gateway.Op)
    requires Inv(w) && Enabled(w, GatewayOp(op))
    ensures Inv(Do(w, GatewayOp(op)))
  {
    OpIsIntake(w, op);
    GatewayOpWorld(w, op);
    IntakeKeeps(w, Do(w, GatewayOp(op)), Requested(op), LookedUp(op));
  }

  lemma GatewayOpWorld(w: World, op: Gateway.Op)
    requires Enabled(w, GatewayOp(op))
    ensures Do(w, GatewayOp(op)) == w.(gw := Gateway.Apply(w.gw, op).0, used := w.used + Requested(op) + LookedUp(op),
                                       lookupTasks := w.lookupTasks + LookedUp(op))
  {
    assert w.used + NewTasks(op) == w.used + Requested(op) + LookedUp(op);
  }

  // ─── Gateway to Scheduler ───────────────────────────────────────────────────

  lemma EventMatchesKey(gw: G.Db, k: G.Key)
    requires GatewayOk(gw) && k in gw.outbox && (k.TrackKey? || k.ForceKey?)
    ensures FromOutbox(gw, gw.outbox[k]) && KeyOf(gw.outbox[k]) == k
  {
    if k.ForceKey? {
      assert Catalog.RequestOk(gw, k.task);
    }
  }

  lemma TrackGrows(w: World, k: G.Key, e: G.Event, sent': set<G.Key>)
    requires Conserved(w) && ForcedOk(w) && k in w.gw.outbox && w.gw.outbox[k] == e
    requires sent' == w.gwSent || sent' == w.gwSent + {k}
    ensures Conserved(w.(track := w.track + multiset{e}, gwSent := sent'))
  {
    var w' := w.(track := w.track + multiset{e}, gwSent := sent');
    forall t | t in w.gw.force && t !in w.sch.forced ensures Upstream(w', t) {
      assert Upstream(w, t);
    }
    forall t | t in w.sch.forced ensures t in w.gw.processed || Downstream(w', t) {
      assert t in w.gw.force;
      assert t in w.gw.processed || Downstream(w, t);
    }
  }

  lemma PublishTrackKeeps(w: World, k: G.Key, marked: bool)
    requires Inv(w) && Enabled(w, PublishTrack(k, marked))
    ensures Inv(Do(w, PublishTrack(k, marked)))
  {
    EventMatchesKey(w.gw, k);
    TrackGrows(w, k, w.gw.outbox[k], Do(w, PublishTrack(k, marked)).gwSent);
  }

  /** The URL and product of every track message are the Scheduler's own. */
  lemma NoMismatch(w: World, e: G.Event)
    requires Inv(w) && e in w.track
    ensures var p, url := e.product, e.url;
            && Platform.Canonical(url) && p in w.gw.products && w.gw.products[p].url == url
            && (p in w.sch.rows ==> w.sch.rows[p].url == url)
            && !S.UrlTaken(w.sch.rows, p, url)
  {
    assert FromOutbox(w.gw, e);
    if e.ForceCommand? {
      assert Catalog.RequestOk(w.gw, e.task);
    }
    forall q | q in w.sch.rows ensures RowOk(w.gw, q, w.sch.rows[q]) {
    }
  }

  /** The Scheduler accepts every snapshot the Gateway generates. */
  lemma SnapshotAccepted(w: World, e: G.Event, now: Time, newRow: Id)
    requires Inv(w) && e in w.track && e.Snapshot?
    ensures S.ApplySnapshot(w.sch, RequestOf(e), now, newRow).1 == S.Committed
  {
    assert FromOutbox(w.gw, e);
    NoMismatch(w, e);
    Platform.AcceptsExactlyCanonical(e.url);
  }

  /** The Scheduler accepts every force command the Gateway generates. */
  lemma ForceAccepted(w: World, e: G.Event)
    requires Inv(w) && e in w.track && e.ForceCommand?
    ensures S.EnqueueForce(w.sch, RequestOf(e)).1 == S.Committed
  {
    NoMismatch(w, e);
    Platform.AcceptsExactlyCanonical(e.url);
  }

  lemma SnapshotKeeps(w: World, e: G.Event, now: Time, newRow: Id, acked: bool)
    requires Inv(w) && e in w.track && e.Snapshot?
    ensures Inv(HandleTracked(w, e, now, newRow, acked))
  {
    SnapshotAccepted(w, e, now, newRow);
    NoMismatch(w, e);
    assert FromOutbox(w.gw, e);
    var sch' := S.ApplySnapshot(w.sch, RequestOf(e), now, newRow).0;
    AppliedSnapshot(w.sch, e, now, newRow);
    SnapshotStep(w, e, sch', Without(w.track, e, acked));
  }

  lemma SnapshotStep(w: World, e: G.Event, sch': S.Db, track': multiset<G.Event>)
    requires Inv(w) && e.Snapshot? && FromOutbox(w.gw, e) && RowAfter(w.sch.rows, e, sch'.rows)
    requires e.product in w.gw.products && w.gw.products[e.product].url == e.url
    requires sch'.forced == w.sch.forced && sch'.outbox == w.sch.outbox
    requires track' == w.track || track' == w.track - multiset{e}
    ensures Inv(w.(sch := sch', track := track', applied := w.applied + {(e.product, e.version)}))
  {
    var w' := w.(sch := sch', track := track', applied := w.applied + {(e.product, e.version)});
    SnapshotReplica(w, w', e);
    SnapshotConserved(w, w', e);
    RowsOnly(w, w');
  }

  /** Replica rows, the snapshots applied and the track queue may differ, and nothing else. */
  ghost predicate SameButRows(w: World, w': World) {
    w' == w.(sch := w'.sch, track := w'.track, applied := w'.applied)
    && w'.sch == w.sch.(rows := w'.sch.rows) && w'.track <= w.track
  }

  lemma RowsOnly(w: World, w': World)
    requires ForcedOk(w) && MessagesOk(w) && IdsOk(w) && SameButRows(w, w')
    ensures ForcedOk(w') && MessagesOk(w') && IdsOk(w')
  {
  }

  /** What a committed snapshot does to the row of its product. */
  ghost predicate RowAfter(rows: map<Id, S.Row>, e: G.Event, rows': map<Id, S.Row>)
    requires e.Snapshot?
  {
    var p := e.product;
    && rows'.Keys == rows.Keys + {p} && (forall q | q in rows && q != p :: rows'[q] == rows[q])
    && if p in rows && rows[p].version >= e.version then rows'[p] == rows[p]
       else rows'[p].version == e.version && rows'[p].active == e.active && rows'[p].url == e.url
            && rows'[p].interval == e.intervalHours
  }

  lemma AppliedSnapshot(sch: S.Db, e: G.Event, now: Time, newRow: Id)
    requires e.Snapshot? && (e.product in sch.rows ==> sch.rows[e.product].url == e.url)
    requires S.ApplySnapshot(sch, RequestOf(e), now, newRow).1 == S.Committed
    ensures var sch' := S.ApplySnapshot(sch, RequestOf(e), now, newRow).0;
            RowAfter(sch.rows, e, sch'.rows) && sch'.forced == sch.forced && sch'.outbox == sch.outbox
  {
  }

  lemma SnapshotReplica(w: World, w': World, e: G.Event)
    requires ReplicaOk(w) && e.Snapshot? && FromOutbox(w.gw, e) && w'.gw == w.gw
    requires RowAfter(w.sch.rows, e, w'.sch.rows) && w'.applied == w.applied + {(e.product, e.version)}
    requires e.product in w.gw.products && w.gw.products[e.product].url == e.url && e.intervalHours > 0
    ensures ReplicaOk(w')
  {
    forall q | q in w'.sch.rows ensures RowOk(w.gw, q, w'.sch.rows[q]) {
      assert q in w.sch.rows ==> RowOk(w.gw, q, w.sch.rows[q]);
    }
  }

  lemma SnapshotConserved(w: World, w': World, e: G.Event)
    requires Conserved(w) && ForcedOk(w) && Catalog.ForceOk(w.gw) && SameButRows(w, w')
    requires e.Snapshot? && (w'.track == w.track || w'.track == w.track - multiset{e})
    ensures Conserved(w')
  {
    forall t | t in w.gw.force && t !in w.sch.forced ensures Upstream(w', t) {
      assert Upstream(w, t) && Catalog.RequestOk(w.gw, t);
    }
    forall t | t in w.sch.forced ensures t in w.gw.processed || Downstream(w', t) {
      assert t in w.gw.force;
      assert t in w.gw.processed || Downstream(w, t);
    }
  }

  /** A committed force command: accepted now, or accepted before. */
  ghost predicate ForceAfter(sch: S.Db, e: G.Event, sch': S.Db)
    requires e.ForceCommand?
  {
    && sch'.rows == sch.rows
    && if e.task in sch.forced then sch' == sch
       else && sch'.forced == sch.forced + {e.task}
            && sch'.outbox == sch.outbox[S.Forced(e.task) := S.Task(e.task, e.product, e.url, true, e.chat)]
            && S.Forced(e.task) !in sch.outbox
  }

  lemma AcceptedForce(sch: S.Db, e: G.Event)
    requires e.ForceCommand? && S.EnqueueForce(sch, RequestOf(e)).1 == S.Committed
    ensures ForceAfter(sch, e, S.EnqueueForce(sch, RequestOf(e)).0)
  {
  }

  lemma ForceKeeps(w: World, e: G.Event, now: Time, newRow: Id, acked: bool)
    requires Inv(w) && e in w.track && e.ForceCommand?
    ensures Inv(HandleTracked(w, e, now, newRow, acked))
  {
    ForceAccepted(w, e);
    AcceptedForce(w.sch, e);
    var sch' := S.EnqueueForce(w.sch, RequestOf(e)).0;
    assert FromOutbox(w.gw, e) && Catalog.RequestOk(w.gw, e.task);
    ForceStep(w, e, sch', Without(w.track, e, acked));
  }

  lemma ForceStep(w: World, e: G.Event, sch': S.Db, track': multiset<G.Event>)
    requires Inv(w) && e.ForceCommand? && ForceAfter(w.sch, e, sch')
    requires e.task in w.gw.force && Catalog.RequestOk(w.gw, e.task) && e == Catalog.CommandOf(w.gw, e.task)
    requires track' == w.track || track' == w.track - multiset{e}
    ensures Inv(w.(sch := sch', track := track'))
  {
    ForceConserved(w, e, sch', track');
    ForceTasks(w, e, sch');
  }

  lemma ForceConserved(w: World, e: G.Event, sch': S.Db, track': multiset<G.Event>)
    requires Conserved(w) && ForcedOk(w) && Catalog.ForceOk(w.gw) && e.ForceCommand? && ForceAfter(w.sch, e, sch')
    requires e.task in w.gw.force && (track' == w.track || track' == w.track - multiset{e})
    ensures Conserved(w.(sch := sch', track := track'))
  {
    var w' := w.(sch := sch', track := track');
    forall t | t in w.gw.force && t !in sch'.forced ensures Upstream(w', t) {
      assert Upstream(w, t) && Catalog.RequestOk(w.gw, t);
    }
    forall t | t in sch'.forced ensures t in w.gw.processed || Downstream(w', t) {
      if t in w.sch.forced {
        assert t in w.gw.force;
        assert t in w.gw.processed || Downstream(w, t);
      } else {
        assert S.Forced(t) in sch'.outbox && S.Forced(t) !in w.schSent;
      }
    }
  }

  lemma ForceTasks(w: World, e: G.Event, sch': S.Db)
    requires ForcedOk(w) && IdsOk(w) && e.ForceCommand? && ForceAfter(w.sch, e, sch')
    requires e.task in w.gw.force && Catalog.RequestOk(w.gw, e.task) && e == Catalog.CommandOf(w.gw, e.task)
    ensures ForcedOk(w.(sch := sch'))
  {
    forall k | k in sch'.outbox ensures TaskOk(w.gw, w.used, sch'.outbox[k]) && sch'.outbox[k].task == k.task {
      if k == S.Forced(e.task) && e.task !in w.sch.forced {
        assert sch'.outbox[k] == S.Task(e.task, e.product, e.url, true, e.chat);
      } else {
        assert k in w.sch.outbox && sch'.outbox[k] == w.sch.outbox[k];
      }
    }
    forall t: Id ensures t in sch'.forced <==> S.Forced(t) in sch'.outbox {
    }
  }

  // ─── Scheduler to Extractor ─────────────────────────────────────────────────

  /** Queues may gain messages about known tasks; nothing already on its way is lost. */
  lemma StillDownstream(w: World, w': World)
    requires Conserved(w) && ForcedOk(w)
    requires w'.gw == w.gw && w'.gwSent == w.gwSent && w'.track == w.track && w'.sch.forced == w.sch.forced
    requires forall t | t in w.sch.forced && Downstream(w, t) :: t in w.gw.processed || Downstream(w', t)
    ensures Conserved(w')
  {
    forall t | t in w.gw.force && t !in w.sch.forced ensures Upstream(w', t) {
      assert Upstream(w, t);
    }
    forall t | t in w.sch.forced ensures t in w.gw.processed || Downstream(w', t) {
      assert t in w.gw.force;
      assert t in w.gw.processed || Downstream(w, t);
    }
  }

  lemma PublishScrapeKeeps(w: World, k: S.Key, marked: bool)
    requires Inv(w) && Enabled(w, PublishScrape(k, marked))
    ensures Inv(Do(w, PublishScrape(k, marked)))
  {
    ScrapeQueued(w, w.sch.outbox[k], k, if marked then w.schSent + {k} else w.schSent);
  }

  lemma ScrapeQueued(w: World, x: S.Task, k: S.Key, sent': set<S.Key>)
    requires Inv(w) && k in w.sch.outbox && w.sch.outbox[k] == x && w.schSent <= sent' <= w.schSent + {k}
    ensures Inv(w.(scrape := w.scrape + multiset{x}, schSent := sent'))
  {
    var w' := w.(scrape := w.scrape + multiset{x}, schSent := sent');
    assert Conserved(w') by {
      forall t | t in w.sch.forced && Downstream(w, t) ensures Downstream(w', t) {
        PublishedDownstream(w, x, k, t, w');
      }
      StillDownstream(w, w');
    }
    ScrapeIsOk(w, w', x);
  }

  lemma ScrapeIsOk(w: World, w': World, x: S.Task)
    requires MessagesOk(w) && ForcedOk(w) && ReplicaOk(w) && TaskOk(w.gw, w.used, x)
    requires w' == w.(scrape := w.scrape + multiset{x}, schSent := w'.schSent) && w'.schSent <= w.sch.outbox.Keys
    ensures MessagesOk(w') && ForcedOk(w') && ReplicaOk(w')
  {
  }

  lemma PublishedDownstream(w: World, x: S.Task, k: S.Key, t: Id, w': World)
    requires Downstream(w, t) && x.task == k.task && w'.results == w.results && w'.sch == w.sch
    requires w'.scrape == w.scrape + multiset{x} && w'.schSent <= w.schSent + {k}
    ensures Downstream(w', t)
  {
    if S.Forced(t) == k {
      assert x in w'.scrape;
    } else if Scraping(w, t) {
      var y :| y in w.scrape && y.task == t;
      assert y in w'.scrape;
    } else if Reporting(w, t) {
      var q :| q in w.results && q.task == G.Uuid(t);
      assert q in w'.results;
    }
  }

  /** A due batch adds periodic tasks with new ids for products the replica knows. */
  ghost predicate BatchTask(w: World, tasks: set<Id>, k: S.Key, x: S.Task) {
    k.Periodic? && k.task in tasks && x.task == k.task && x.product in w.sch.rows
  }

  lemma {:induction false} BatchTasks(w: World, batch: seq<Id>, tasks: seq<Id>, all: set<Id>, k: S.Key)
    requires |tasks| == |batch| && (forall p | p in batch :: p in w.sch.rows) && TaskSet(tasks) <= all
    requires k in S.BatchEvents(w.sch.rows, batch, tasks)
    ensures BatchTask(w, all, k, S.BatchEvents(w.sch.rows, batch, tasks)[k])
    decreases |batch|
  {
    var n := |batch| - 1;
    assert tasks[n] in TaskSet(tasks) && batch[n] in batch;
    assert forall p | p in batch[..n] :: p in batch;
    if k != S.Periodic(tasks[n]) {
      assert TaskSet(tasks[..n]) <= TaskSet(tasks);
      BatchTasks(w, batch[..n], tasks[..n], all, k);
    }
  }

  lemma EnqueueDueKeeps(w: World, now: Time, locked: set<Id>, batch: seq<Id>, tasks: seq<Id>)
    requires Inv(w) && Enabled(w, EnqueueDue(now, locked, batch, tasks))
    ensures Inv(Do(w, EnqueueDue(now, locked, batch, tasks)))
  {
    BatchAddsTasks(w, now, batch, tasks);
    DueStep(w, S.EnqueueDue(w.sch, now, batch, tasks), TaskSet(tasks));
  }

  lemma BatchAddsTasks(w: World, now: Time, batch: seq<Id>, tasks: seq<Id>)
    requires |tasks| == |batch| && forall p | p in batch :: p in w.sch.rows
    ensures DueAfter(w, S.EnqueueDue(w.sch, now, batch, tasks), TaskSet(tasks))
  {
    var sch' := S.EnqueueDue(w.sch, now, batch, tasks);
    forall k | k in sch'.outbox ensures (k in w.sch.outbox && sch'.outbox[k] == w.sch.outbox[k])
                                        || BatchTask(w, TaskSet(tasks), k, sch'.outbox[k])
    {
      if k in S.BatchEvents(w.sch.rows, batch, tasks) {
        BatchTasks(w, batch, tasks, TaskSet(tasks), k);
      }
    }
  }

  /** Schedules moved, periodic tasks added. */
  ghost predicate DueAfter(w: World, sch': S.Db, tasks: set<Id>) {
    && sch'.forced == w.sch.forced && sch'.rows.Keys == w.sch.rows.Keys
    && (forall p | p in sch'.rows :: sch'.rows[p].(next := w.sch.rows[p].next) == w.sch.rows[p])
    && w.sch.outbox.Keys <= sch'.outbox.Keys
    && forall k | k in sch'.outbox ::
         (k in w.sch.outbox && sch'.outbox[k] == w.sch.outbox[k]) || BatchTask(w, tasks, k, sch'.outbox[k])
  }

  lemma DueTasks(w: World, sch': S.Db, tasks: set<Id>)
    requires ForcedOk(w) && ReplicaOk(w) && IdsOk(w) && DueAfter(w, sch', tasks) && tasks !! w.used
    ensures ForcedOk(w.(sch := sch', used := w.used + tasks))
  {
    var used' := w.used + tasks;
    forall k | k in sch'.outbox ensures TaskOk(w.gw, used', sch'.outbox[k]) && sch'.outbox[k].task == k.task {
      if k in w.sch.outbox && sch'.outbox[k] == w.sch.outbox[k] {
        assert TaskOk(w.gw, w.used, w.sch.outbox[k]);
      } else {
        assert BatchTask(w, tasks, k, sch'.outbox[k]);
        assert RowOk(w.gw, sch'.outbox[k].product, w.sch.rows[sch'.outbox[k].product]);
        assert k.task !in w.gw.force;
      }
    }
    forall t: Id ensures t in sch'.forced <==> S.Forced(t) in sch'.outbox {
    }
  }

  lemma DueStep(w: World, sch': S.Db, tasks: set<Id>)
    requires Inv(w) && DueAfter(w, sch', tasks) && tasks !! w.used
    ensures Inv(w.(sch := sch', used := w.used + tasks))
  {
    var w' := w.(sch := sch', used := w.used + tasks);
    MessagesStayOk(w, w');
    DueTasks(w, sch', tasks);
    DueReplica(w, w', tasks);
    DueConserved(w, sch', tasks);
  }

  lemma DueConserved(w: World, sch': S.Db, tasks: set<Id>)
    requires Conserved(w) && ForcedOk(w) && DueAfter(w, sch', tasks)
    ensures Conserved(w.(sch := sch', used := w.used + tasks))
  {
    StillDownstream(w, w.(sch := sch', used := w.used + tasks));
  }

  lemma DueReplica(w: World, w': World, tasks: set<Id>)
    requires ReplicaOk(w) && DueAfter(w, w'.sch, tasks) && w'.gw == w.gw && w'.applied == w.applied
    ensures ReplicaOk(w')
  {
    forall p | p in w'.sch.rows ensures RowOk(w.gw, p, w'.sch.rows[p]) {
      assert RowOk(w.gw, p, w.sch.rows[p]);
    }
  }

  // ─── Extractor to Gateway ───────────────────────────────────────────────────

  lemma ScrapedDownstream(w: World, x: S.Task, r: G.PriceResult, t: Id, w': World)
    requires Downstream(w, t) && r.task == G.Uuid(x.task) && w'.sch == w.sch && w'.schSent == w.schSent
    requires w'.results == w.results + multiset{r} && (w'.scrape == w.scrape || w'.scrape == w.scrape - multiset{x})
    ensures Downstream(w', t)
  {
    if x.task == t {
      assert r in w'.results;
    } else if Scraping(w, t) {
      var y :| y in w.scrape && y.task == t;
      assert y in w'.scrape;
    } else if Reporting(w, t) {
      var q :| q in w.results && q.task == G.Uuid(t);
      assert q in w'.results;
    }
  }

  lemma RelayKeeps(w: World, x: S.Task, r: G.PriceResult, scrape': multiset<S.Task>)
    requires Inv(w) && ResultOk(w.gw, w.used, r) && r.task == G.Uuid(x.task)
    requires scrape' == w.scrape || scrape' == w.scrape - multiset{x}
    ensures Inv(w.(results := w.results + multiset{r}, scrape := scrape'))
  {
    var w' := w.(results := w.results + multiset{r}, scrape := scrape');
    forall t | t in w.sch.forced && Downstream(w, t) ensures Downstream(w', t) {
      ScrapedDownstream(w, x, r, t, w');
    }
    StillDownstream(w, w');
  }

  lemma ScrapeKeeps(w: World, x: S.Task, f: Fetch, at: Time, acked: bool)
    requires Inv(w) && Enabled(w, Scrape(x, f, at, acked))
    ensures Inv(Do(w, Scrape(x, f, at, acked)))
  {
    if Encodable(f) {
      var r := ResultOf(x.task, G.Empty, G.Uuid(x.product), f, at, x.force);
      assert TaskOk(w.gw, w.used, x);
      assert ResultOk(w.gw, w.used, r);
      RelayKeeps(w, x, r, Without(w.scrape, x, acked));
    }
  }

  lemma LookUpKeeps(w: World, t: Id, lookup: Id, f: Fetch, at: Time)
    requires Inv(w) && Enabled(w, LookUp(t, lookup, f, at))
    ensures Inv(Do(w, LookUp(t, lookup, f, at)))
  {
    if Encodable(f) {
      var r := ResultOf(t, G.Uuid(lookup), G.Empty, f, at, false);
      assert ResultOk(w.gw, w.used, r);
      ExtraResult(w, r);
    }
  }

  lemma ExtraResult(w: World, r: G.PriceResult)
    requires Inv(w) && ResultOk(w.gw, w.used, r)
    ensures Inv(w.(results := w.results + multiset{r}))
  {
    var w' := w.(results := w.results + multiset{r});
    forall u | u in w.sch.forced && Downstream(w, u) ensures Downstream(w', u) {
      if Reporting(w, u) {
        var q :| q in w.results && q.task == G.Uuid(u);
        assert q in w'.results;
      }
    }
    StillDownstream(w, w');
  }

  /** The Gateway answers every result of a force request, unless the database refuses it. */
  lemma ForceResultProcessed(w: World, r: G.PriceResult)
    requires Inv(w) && r in w.results && r.task.id in w.gw.force
    ensures var (gw', outcome) := G.ProcessPriceResult(w.gw, r);
            outcome == G.DbError || (outcome == G.Committed && r.task.id in gw'.processed)
  {
    assert ResultOk(w.gw, w.used, r) && Catalog.RequestOk(w.gw, r.task.id);
  }

  lemma HandleResultKeeps(w: World, r: G.PriceResult, acked: bool)
    requires Inv(w) && r in w.results
    ensures Inv(HandledResult(w, r, acked))
  {
    var (gw', outcome) := G.ProcessPriceResult(w.gw, r);
    if outcome != G.DbError {
      assert ResultOk(w.gw, w.used, r);
      OpKeepsGateway(w.gw, Gateway.Processing(r));
      Catalog.ResultTables(w.gw, r);
      Catalog.ResultMark(w.gw, r);
      if r.task.id in w.gw.force {
        ForceResultProcessed(w, r);
      }
      ResultStep(w, r, gw', Without(w.results, r, acked));
    }
  }

  lemma ResultConserved(w: World, r: G.PriceResult, gw': G.Db, results': multiset<G.PriceResult>)
    requires Conserved(w) && ForcedOk(w) && r.task.Uuid?
    requires Catalog.Grows(w.gw, gw') && gw'.force == w.gw.force
    requires r.task.id in w.gw.force ==> r.task.id in gw'.processed
    requires results' == w.results || results' == w.results - multiset{r}
    ensures Conserved(w.(gw := gw', results := results'))
  {
    var w' := w.(gw := gw', results := results');
    forall t | t in w.gw.force && t !in w.sch.forced ensures Upstream(w', t) {
      assert Upstream(w, t);
    }
    forall t | t in w.sch.forced ensures t in gw'.processed || Downstream(w', t) {
      assert t in w.gw.force;
      assert t in w.gw.processed || Downstream(w, t);
      if t != r.task.id && Reporting(w, t) {
        var q :| q in w.results && q.task == G.Uuid(t);
        assert q in results';
      }
    }
  }

  lemma ResultStep(w: World, r: G.PriceResult, gw': G.Db, results': multiset<G.PriceResult>)
    requires Inv(w) && r in w.results && r.task.Uuid? && r.task.id in w.used
    requires GatewayOk(gw') && Catalog.Grows(w.gw, gw') && gw'.force == w.gw.force
    requires gw'.processed <= w.gw.processed + {r.task.id}
    requires r.task.id in w.gw.force ==> r.task.id in gw'.processed
    requires results' == w.results || results' == w.results - multiset{r}
    ensures Inv(w.(gw := gw', results := results'))
  {
    GatewayStepKeeps(w, w.(gw := gw', results := results'));
    ResultConserved(w, r, gw', results');
  }

  // ─── All runs ───────────────────────────────────────────────────────────────

  lemma StepKeeps(w: World, a: Action)
    requires Inv(w) && Enabled(w, a)
    ensures Inv(Do(w, a))
  {
    match a
    case GatewayOp(op) => GatewayOpKeeps(w, op);
    case PublishTrack(k, marked) => PublishTrackKeeps(w, k, marked);
    case HandleTrack(m, now, newRow, acked) =>
      assert FromOutbox(w.gw, m);
      if m.Snapshot? {
        SnapshotKeeps(w, m, now, newRow, acked);
      } else {
        ForceKeeps(w, m, now, newRow, acked);
      }
    case EnqueueDue(now, locked, batch, tasks) => EnqueueDueKeeps(w, now, locked, batch, tasks);
    case PublishScrape(k, marked) => PublishScrapeKeeps(w, k, marked);
    case Scrape(x, f, at, acked) => ScrapeKeeps(w, x, f, at, acked);
    case LookUp(t, lookup, f, at) => LookUpKeeps(w, t, lookup, f, at);
    case HandleResult(r, acked) => HandleResultKeeps(w, r, acked);
  }

  ghost predicate Possible(w: World, actions: seq<Action>)
    decreases |actions|
  {
    actions != [] ==> Enabled(w, actions[0]) && Possible(Do(w, actions[0]), actions[1..])
  }

  ghost function After(w: World, actions: seq<Action>): World
    requires Possible(w, actions)
    decreases |actions|
  {
    if actions == [] then w else After(Do(w, actions[0]), actions[1..])
  }

  lemma {:induction false} RunKeeps(w: World, actions: seq<Action>)
    requires Inv(w) && Possible(w, actions)
    ensures Inv(After(w, actions))
    decreases |actions|
  {
    if actions != [] {
      StepKeeps(w, actions[0]);
      RunKeeps(Do(w, actions[0]), actions[1..]);
    }
  }

  ghost predicate Reachable(w: World) {
    exists actions :: Possible(START, actions) && After(START, actions) == w
  }

  lemma ReachableInv(w: World)
    requires Reachable(w)
    ensures Inv(w)
  {
    var actions :| Possible(START, actions) && After(START, actions) == w;
    RunKeeps(START, actions);
  }

  /** A copy of the request is in an outbox, in a queue or unacknowledged. */
  ghost predicate LiveCopy(w: World, t: Id) {
    Upstream(w, t) || Downstream(w, t)
  }

  /** The request's reply: exactly the event under its key, addressed to the saved chat. */
  ghost predicate Replied(gw: G.Db, t: Id)
    requires t in gw.force
  {
    && G.ForceResultKey(t) in gw.outbox
    && gw.outbox[G.ForceResultKey(t)].Notify? && gw.outbox[G.ForceResultKey(t)].target == gw.force[t].chat
  }

  /** Nothing is silently lost: in every reachable state a force request has either
      been processed and answered, or a copy of it is still on its way; and there is
      no reply to a request that has not been processed. */
  lemma ForceRequestsConserved(w: World, t: Id)
    requires Reachable(w) && t in w.gw.force
    ensures t in w.gw.processed <==> Replied(w.gw, t)
    ensures t !in w.gw.processed ==> LiveCopy(w, t) && G.ForceResultKey(t) !in w.gw.outbox
  {
    ReachableInv(w);
    assert Catalog.RequestOk(w.gw, t);
  }

  /** A copy of the request other than the scrape task `x`. */
  ghost predicate OtherCopy(w: World, t: Id, x: S.Task) {
    || Upstream(w, t) || (S.Forced(t) in w.sch.outbox && S.Forced(t) !in w.schSent)
    || (exists y :: y in w.scrape - multiset{x} && y.task == t) || Reporting(w, t)
  }

  /** The Gateway drops a negative price as invalid: scraping one and handling the
      result amounts to losing the scrape task. */
  lemma NegativePriceIsDropped(w: World, x: S.Task, f: Fetch, at: Time)
    requires x in w.scrape && f.Fetched? && f.price.Finite? && f.price.kopecks < 0
    ensures var r := ResultOf(x.task, G.Empty, G.Uuid(x.product), f, at, x.force);
            HandledResult(Scraped(w, x, f, at, true), r, true) == w.(scrape := w.scrape - multiset{x})
  {
    var r := ResultOf(x.task, G.Empty, G.Uuid(x.product), f, at, x.force);
    assert w.results + multiset{r} - multiset{r} == w.results;
  }

  lemma WithoutTask(w: World, x: S.Task, t: Id, w': World)
    requires w' == w.(scrape := w.scrape - multiset{x})
    ensures LiveCopy(w', t) <==> OtherCopy(w, t, x)
  {
    assert Scraping(w', t) <==> exists y :: y in w.scrape - multiset{x} && y.task == t;
    assert Upstream(w', t) <==> Upstream(w, t);
    assert Reporting(w', t) <==> Reporting(w, t);
  }

  lemma Unanswered(w: World, t: Id)
    requires Inv(w) && t in w.gw.force && t !in w.gw.processed
    ensures G.ForceResultKey(t) !in w.gw.outbox
  {
    assert Catalog.RequestOk(w.gw, t);
  }

  /** Why a page load must not yield a negative price: in any state the services can
      be in, the request whose task yields one stays unanswered, and it still has a
      live copy if and only if it had another one before. */
  lemma NegativePriceLosesRequest(w: World, x: S.Task, f: Fetch, at: Time)
    requires Inv(w) && x in w.scrape && x.task in w.gw.force && x.task !in w.gw.processed
    requires f.Fetched? && f.price.Finite? && f.price.kopecks < 0
    ensures var t, r := x.task, ResultOf(x.task, G.Empty, G.Uuid(x.product), f, at, x.force);
            var w' := HandledResult(Scraped(w, x, f, at, true), r, true);
            && t !in w'.gw.processed && G.ForceResultKey(t) !in w'.gw.outbox
            && (LiveCopy(w', t) <==> OtherCopy(w, t, x))
  {
    NegativePriceIsDropped(w, x, f, at);
    Unanswered(w, x.task);
    WithoutTask(w, x, x.task, w.(scrape := w.scrape - multiset{x}));
  }

  // ─── Acceptance ─────────────────────────────────────────────────────────────

  /** No snapshot or force command the Gateway generates is rejected by the Scheduler. */
  lemma NothingRejected(w: World, m: G.Event, now: Time, newRow: Id)
    requires Reachable(w) && m in w.track
    ensures if m.Snapshot? then S.ApplySnapshot(w.sch, RequestOf(m), now, newRow).1 == S.Committed
            else S.EnqueueForce(w.sch, RequestOf(m)).1 == S.Committed
  {
    ReachableInv(w);
    assert FromOutbox(w.gw, m);
    if m.Snapshot? {
      SnapshotAccepted(w, m, now, newRow);
    } else {
      ForceAccepted(w, m);
    }
  }
}
