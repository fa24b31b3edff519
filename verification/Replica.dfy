/** The Scheduler's replica against the Gateway's history: under any reordering and
    duplication it shows what was true at its version, never moves back, and ends at
    the current truth once the newest snapshot was applied. */
module Replica {
  import opened Wrappers
  import opened System
  import G = GatewayDb
  import Gateway
  import Catalog
  import S = SchedulerDb

  /** A replica row shows what the Gateway announced at its version, and that version
      is one the Gateway has reached. */
  lemma ShowsAnnounced(w: World, p: Id)
    requires Inv(w) && p in w.sch.rows
    ensures var row := w.sch.rows[p];
            && p in w.gw.products && 1 <= row.version <= w.gw.products[p].version
            && G.TrackKey(p, row.version) in w.gw.outbox
            && w.gw.outbox[G.TrackKey(p, row.version)] ==
               G.Snapshot(p, w.gw.products[p].url, row.version, row.active, G.INTERVAL_HOURS)
  {
    assert RowOk(w.gw, p, w.sch.rows[p]);
  }

  lemma SnapshotNeverRegresses(sch: S.Db, r: S.Request, now: Time, newRow: Id, p: Id)
    requires p in sch.rows
    ensures var rows' := S.ApplySnapshot(sch, r, now, newRow).0.rows;
            p in rows' && sch.rows[p].version <= rows'[p].version
  {
  }

  lemma ForceLeavesRows(sch: S.Db, r: S.Request)
    ensures S.EnqueueForce(sch, r).0.rows == sch.rows
  {
  }

  lemma HandlingNeverRegresses(w: World, m: G.Event, now: Time, newRow: Id, acked: bool, p: Id)
    requires p in w.sch.rows
    ensures var rows' := HandleTracked(w, m, now, newRow, acked).sch.rows;
            p in rows' && w.sch.rows[p].version <= rows'[p].version
  {
    if m.Snapshot? {
      SnapshotNeverRegresses(w.sch, RequestOf(m), now, newRow, p);
    } else {
      ForceLeavesRows(w.sch, RequestOf(m));
    }
  }

  lemma OthersLeaveRows(w: World, a: Action, p: Id)
    requires Enabled(w, a) && !a.HandleTrack? && p in w.sch.rows
    ensures p in Do(w, a).sch.rows && Do(w, a).sch.rows[p].version == w.sch.rows[p].version
  {
  }

  /** No step ever lowers a replica's version or removes its tombstone. */
  lemma VersionsNeverDecrease(w: World, a: Action, p: Id)
    requires Enabled(w, a) && p in w.sch.rows
    ensures p in Do(w, a).sch.rows && w.sch.rows[p].version <= Do(w, a).sch.rows[p].version
  {
    if a.HandleTrack? {
      HandlingNeverRegresses(w, a.m, a.now, a.newRow, a.acked, p);
    } else {
      OthersLeaveRows(w, a, p);
    }
  }

  // ─── The Gateway along a run ────────────────────────────────────────────────

  lemma GrowsTwice(a: G.Db, b: G.Db, c: G.Db)
    requires Catalog.Grows(a, b) && Catalog.Grows(b, c)
    ensures Catalog.Grows(a, c)
  {
  }

  /** The Gateway takes one of its operations, or stays as it is. */
  ghost predicate GatewayMoves(gw: G.Db, gw': G.Db) {
    gw' == gw || exists op :: Gateway.Admissible(gw, op) && gw' == Gateway.Apply(gw, op).0
  }

  lemma StepMovesGateway(w: World, a: Action)
    requires Enabled(w, a)
    ensures GatewayMoves(w.gw, Do(w, a).gw)
  {
    match a
    case GatewayOp(op) => assert Gateway.Admissible(w.gw, op) && Do(w, a).gw == Gateway.Apply(w.gw, op).0;
    case HandleResult(r, _) =>
      var op := Gateway.Processing(r);
      assert Gateway.Admissible(w.gw, op) && Gateway.Apply(w.gw, op) == G.ProcessPriceResult(w.gw, r);
    case _ => assert Do(w, a).gw == w.gw;
  }

  lemma MovesGrow(gw: G.Db, gw': G.Db)
    requires GatewayMoves(gw, gw')
    ensures Catalog.Grows(gw, gw') && Gateway.VersionsStep(gw.products, gw'.products)
  {
    if gw' != gw {
      var op :| Gateway.Admissible(gw, op) && gw' == Gateway.Apply(gw, op).0;
      Catalog.OpGrows(gw, op);
      Gateway.OpVersions(gw, op);
    }
  }

  lemma {:induction false} RunGrows(w: World, actions: seq<Action>)
    requires Possible(w, actions)
    ensures Catalog.Grows(w.gw, After(w, actions).gw)
    decreases |actions|
  {
    if actions != [] {
      var w1 := Do(w, actions[0]);
      StepMovesGateway(w, actions[0]);
      MovesGrow(w.gw, w1.gw);
      RunGrows(w1, actions[1..]);
      GrowsTwice(w.gw, w1.gw, After(w, actions).gw);
    }
  }

  /** A run and its continuation. */
  lemma {:induction false} RunInParts(w: World, first: seq<Action>, rest: seq<Action>)
    requires Possible(w, first + rest)
    ensures Possible(w, first) && Possible(After(w, first), rest)
    ensures After(After(w, first), rest) == After(w, first + rest)
    decreases |first|
  {
    if first == [] {
      assert first + rest == rest;
    } else {
      assert (first + rest)[1..] == first[1..] + rest;
      RunInParts(Do(w, first[0]), first[1..], rest);
    }
  }

  // ─── Truth ──────────────────────────────────────────────────────────────────

  /** The newest snapshot tells the truth, and later states still carry it. */
  lemma TruthIsKept(gw: G.Db, gw': G.Db, p: Id)
    requires Gateway.Truthful(gw) && Catalog.Grows(gw, gw') && p in gw.products && gw.products[p].version > 0
    ensures var key := G.TrackKey(p, gw.products[p].version);
            key in gw'.outbox && gw'.outbox[key].Snapshot? && gw'.outbox[key].active == G.Watched(gw.subs, p)
  {
    assert Gateway.Announced(gw, p) == G.Watched(gw.subs, p);
  }

  /** However far a run goes on: a replica row whose version is the Gateway's of some
      earlier state shows whether anybody watched the product in that state. */
  lemma ReplicaShowsTruth(w: World, actions: seq<Action>, p: Id)
    requires Reachable(w) && Possible(w, actions)
    requires p in w.gw.products && p in After(w, actions).sch.rows
    requires After(w, actions).sch.rows[p].version == w.gw.products[p].version
    ensures After(w, actions).sch.rows[p].active == G.Watched(w.gw.subs, p)
  {
    ReachableInv(w);
    RunKeeps(w, actions);
    ShowsAnnounced(After(w, actions), p);
    RunGrows(w, actions);
    TruthIsKept(w.gw, After(w, actions).gw, p);
  }

  /** At step `k` of the run the Gateway's version of `p` was `v`. */
  ghost predicate HadVersion(actions: seq<Action>, k: nat, p: Id, v: nat)
    requires Possible(START, actions)
  {
    && k <= |actions| && Possible(START, actions[..k])
    && p in After(START, actions[..k]).gw.products && After(START, actions[..k]).gw.products[p].version == v
  }

  /** Versions skip nothing: the Gateway went through every one of them. */
  lemma {:induction false} VersionReached(actions: seq<Action>, p: Id, v: nat) returns (k: nat)
    requires Possible(START, actions) && p in After(START, actions).gw.products
    requires 1 <= v <= After(START, actions).gw.products[p].version
    ensures HadVersion(actions, k, p, v)
    decreases |actions|
  {
    var n := |actions|;
    assert actions[..n] == actions;
    if v == After(START, actions).gw.products[p].version {
      k := n;
    } else if n > 0 {
      var init, last := actions[..n - 1], actions[n - 1];
      assert actions == init + [last];
      RunInParts(START, init, [last]);
      var w := After(START, init);
      OneAction(w, last);
      StepMovesGateway(w, last);
      MovesGrow(w.gw, Do(w, last).gw);
      k := VersionReached(init, p, v);
      assert actions[..k] == init[..k];
    }
  }

  lemma OneAction(w: World, a: Action)
    requires Possible(w, [a])
    ensures Enabled(w, a) && After(w, [a]) == Do(w, a)
  {
    assert [a][1..] == [];
  }

  /** At step `k` of the run the Gateway had the row's version, and the row's state was
      the truth about its subscriptions. */
  ghost predicate WasTrue(actions: seq<Action>, k: nat, p: Id, row: S.Row)
    requires Possible(START, actions)
  {
    HadVersion(actions, k, p, row.version) && row.active == G.Watched(After(START, actions[..k]).gw.subs, p)
  }

  lemma TrueThen(actions: seq<Action>, k: nat, p: Id)
    requires Possible(START, actions) && p in After(START, actions).sch.rows
    requires HadVersion(actions, k, p, After(START, actions).sch.rows[p].version)
    ensures WasTrue(actions, k, p, After(START, actions).sch.rows[p])
  {
    assert actions == actions[..k] + actions[k..];
    RunInParts(START, actions[..k], actions[k..]);
    ReplicaShowsTruth(After(START, actions[..k]), actions[k..], p);
  }

  /** Replica safety: under any reordering, duplication and loss, a replica row has a
      version the Gateway has reached, and its `active` is what was true of the
      subscriptions when the Gateway was at that version. */
  lemma ReplicaSafe(actions: seq<Action>, p: Id) returns (k: nat)
    requires Possible(START, actions) && p in After(START, actions).sch.rows
    ensures var w := After(START, actions);
            && p in w.gw.products && 1 <= w.sch.rows[p].version <= w.gw.products[p].version
            && w.sch.rows[p].url == w.gw.products[p].url
    ensures WasTrue(actions, k, p, After(START, actions).sch.rows[p])
  {
    var w := After(START, actions);
    assert Inv(w) by { RunKeeps(START, actions); }
    ShowsAnnounced(w, p);
    k := VersionReached(actions, p, w.sch.rows[p].version);
    TrueThen(actions, k, p);
  }

  /** Convergence: once the newest snapshot has been applied, in whatever company
      and order, the replica shows whether anybody watches the product now. */
  lemma ReplicaConverges(w: World, p: Id)
    requires Reachable(w) && p in w.gw.products && w.gw.products[p].version > 0
    requires (p, w.gw.products[p].version) in w.applied
    ensures p in w.sch.rows && w.sch.rows[p].version == w.gw.products[p].version
    ensures w.sch.rows[p].active == G.Watched(w.gw.subs, p)
  {
    ReachableInv(w);
    ShowsAnnounced(w, p);
    assert Gateway.Announced(w.gw, p) == G.Watched(w.gw.subs, p);
  }
}
