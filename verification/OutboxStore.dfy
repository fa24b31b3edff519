/** The two outbox stores as objects, and the worker loop that drives one of them.
    The protocol they must follow, and what it guarantees, is in `Outbox`. */
module OutboxStore {
  import opened Wrappers
  import opened Outbox

  // ─── Which row a claim takes ────────────────────────────────────────────────

  predicate Candidate(rows: map<Id, Row>, locked: set<Id>, id: Id, now: Time, scheduler: bool) {
    id in rows && id !in locked && Claimable(rows[id], now, scheduler)
  }

  /** The Scheduler breaks ties by id; the Gateway leaves them open. */
  predicate NotAfter(rows: map<Id, Row>, a: Id, b: Id, scheduler: bool)
    requires a in rows && b in rows
  {
    rows[a].created < rows[b].created || (rows[a].created == rows[b].created && (scheduler ==> a <= b))
  }

  ghost predicate First(rows: map<Id, Row>, locked: set<Id>, id: Id, now: Time, scheduler: bool) {
    && Candidate(rows, locked, id, now, scheduler)
    && forall x | x in rows && Candidate(rows, locked, x, now, scheduler) :: NotAfter(rows, id, x, scheduler)
  }

  /** `pick` is an oldest claimable row outside `locked`, if there is one. */
  ghost predicate Picked(rows: map<Id, Row>, locked: set<Id>, pick: Option<Id>, now: Time, scheduler: bool) {
    match pick
    case None => forall x | x in rows :: !Candidate(rows, locked, x, now, scheduler)
    case Some(id) => First(rows, locked, id, now, scheduler)
  }

  /** What may be claimed: an unpublished row whose time has come and whose lease, if it
      has one, has run out; the oldest first, by id among equals in the Scheduler's store. */
  lemma PickIsOldest(rows: map<Id, Row>, locked: set<Id>, pick: Option<Id>, now: Time, scheduler: bool)
    ensures Picked(rows, locked, pick, now, scheduler) <==>
              match pick
              case None => forall x | x in rows :: x in locked || !Ready(rows[x], now, scheduler)
              case Some(id) =>
                && id in rows && id !in locked && Ready(rows[id], now, scheduler)
                && forall x | x in rows && x !in locked && Ready(rows[x], now, scheduler) ::
                     rows[id].created < rows[x].created
                     || (rows[id].created == rows[x].created && (scheduler ==> id <= x))
  {
    assert forall x | x in rows :: Candidate(rows, locked, x, now, scheduler) <==>
                                     x !in locked && Ready(rows[x], now, scheduler);
  }

  predicate Ready(row: Row, now: Time, scheduler: bool) {
    && !row.published && row.available <= now
    && match row.lockedUntil
       case None => true
       case Some(end) => if scheduler then end <= now else end < now
  }

  function EventOf(rows: map<Id, Row>, id: Id, token: Token, now: Time): Event
    requires id in rows
  {
    Event(id, token, rows[id].attempts + 1, now + LEASE)
  }

  function ClaimedRows(rows: map<Id, Row>, pick: Option<Id>, token: Token, now: Time): map<Id, Row>
    requires pick.Some? ==> pick.value in rows
  {
    match pick
    case None => rows
    case Some(id) => rows[id := ClaimedRow(rows[id], token, now)]
  }

  class Store {
    const scheduler: bool
    var rows: map<Id, Row>

    constructor (scheduler: bool)
      ensures this.scheduler == scheduler && rows == map[]
    {
      this.scheduler := scheduler;
      rows := map[];
    }

    /** `locked`: the rows other transactions hold, which SKIP LOCKED passes over. */
    method Claim(now: Time, token: Token, locked: set<Id>) returns (event: Option<Event>)
      modifies this
      ensures event.None? ==> Picked(old(rows), locked, None, now, scheduler) && rows == old(rows)
      ensures event.Some? ==> Picked(old(rows), locked, Some(event.value.id), now, scheduler)
      ensures event.Some? ==> event.value == EventOf(old(rows), event.value.id, token, now)
      ensures event.Some? ==> rows == ClaimedRows(old(rows), Some(event.value.id), token, now)
    {
      var pick: Option<Id> := None;
      var todo := rows.Keys;
      while todo != {}
        invariant todo <= rows.Keys && rows == old(rows)
        invariant pick.None? ==> forall x | x in rows && x !in todo :: !Candidate(rows, locked, x, now, scheduler)
        invariant pick.Some? ==> Candidate(rows, locked, pick.value, now, scheduler)
        invariant pick.Some? ==> forall x | x in rows && x !in todo && Candidate(rows, locked, x, now, scheduler) ::
                                   NotAfter(rows, pick.value, x, scheduler)
        decreases |todo|
      {
        var id :| id in todo;
        todo := todo - {id};
        if Candidate(rows, locked, id, now, scheduler) && (pick.None? || !NotAfter(rows, pick.value, id, scheduler)) {
          pick := Some(id);
        }
      }
      if pick.None? {
        return None;
      }
      event := Some(EventOf(rows, pick.value, token, now));
      rows := rows[pick.value := ClaimedRow(rows[pick.value], token, now)];
    }

    /** The Scheduler reports a lost lease; the Gateway does not. */
    method MarkPublished(id: Id, token: Token) returns (ok: bool)
      modifies this
      ensures rows == MarkedRows(old(rows), id, token)
      ensures ok <==> (scheduler ==> Owns(old(rows), id, token))
    {
      var owner := Owns(rows, id, token);
      if owner {
        rows := rows[id := rows[id].(published := true, token := None, lockedUntil := None)];
      }
      ok := owner || !scheduler;
    }

    method Retry(id: Id, token: Token, now: Time, delay: Time) returns (ok: bool)
      modifies this
      ensures rows == RetriedRows(old(rows), id, token, now + delay)
      ensures ok <==> (scheduler ==> Owns(old(rows), id, token))
    {
      var owner := Owns(rows, id, token);
      if owner {
        rows := rows[id := rows[id].(available := now + delay, token := None, lockedUntil := None)];
      }
      ok := owner || !scheduler;
    }
  }

  // ─── One turn of the worker ─────────────────────────────────────────────────

  /** How the claim went. A commit whose answer is lost leaves the row leased. */
  datatype ClaimAnswer = Refused | CommitLost | Granted

  /** When in a turn the worker's context is cancelled, if it is; it stays so. */
  datatype Cancelled = Never | WhileClaiming | WhilePublishing | Later

  /** What the worker meets in one turn: times, the database, the broker, and the
      cancellation of its context. `reached`: the closing statement was executed. */
  datatype Turn = Turn(now: Time, token: Token, locked: set<Id>, claim: ClaimAnswer, cancelled: Cancelled,
                       validPayload: bool, took: Time, publishOk: bool, reached: bool)

  /** The turn got as far as handing the event to the publisher. */
  predicate Publishes(t: Turn, pick: Option<Id>) {
    t.claim.Granted? && pick.Some? && !t.cancelled.WhileClaiming? && t.validPayload
  }

  function TurnRows(rows: map<Id, Row>, t: Turn, pick: Option<Id>): map<Id, Row>
    requires pick.Some? ==> pick.value in rows
  {
    if t.claim.Refused? then rows
    else
      var leased := ClaimedRows(rows, pick, t.token, t.now);
      if t.claim.CommitLost? || pick.None? || t.cancelled.WhileClaiming? then leased
      else if !t.validPayload then
        if t.reached then RetriedRows(leased, pick.value, t.token, t.now + Backoff(rows[pick.value].attempts + 1))
          else leased
      else if t.publishOk then
        if t.reached then MarkedRows(leased, pick.value, t.token) else leased
      else if t.cancelled.WhilePublishing? || !t.reached then leased
      else RetriedRows(leased, pick.value, t.token, t.now + t.took + Backoff(rows[pick.value].attempts + 1))
  }

  /** The broker took the event and the worker recorded that. */
  predicate Published(t: Turn) {
    t.claim.Granted? && t.cancelled != WhileClaiming && t.validPayload && t.publishOk && t.reached
  }

  /** The event could not be delivered, and the worker put it off. */
  predicate PutOff(t: Turn) {
    t.claim.Granted? && t.cancelled != WhileClaiming && t.reached
    && (!t.validPayload || (!t.publishOk && t.cancelled != WhilePublishing))
  }

  /** What a turn leaves of the row it claimed: published, put off by the back-off of
      this attempt from the end of the attempt on, or leased for a minute. */
  lemma TurnLeaves(rows: map<Id, Row>, t: Turn, id: Id)
    requires id in rows && !rows[id].published && !t.claim.Refused?
    ensures var rows' := TurnRows(rows, t, Some(id));
            && rows'.Keys == rows.Keys && (forall x | x in rows && x != id :: rows'[x] == rows[x])
            && rows'[id].created == rows[id].created && rows'[id].attempts == rows[id].attempts + 1
            && (rows'[id].published <==> Published(t))
            && (rows'[id].token.None? <==> Published(t) || PutOff(t))
            && rows'[id].lockedUntil == (if Published(t) || PutOff(t) then None else Some(t.now + 60))
            && (rows'[id].token.Some? ==> rows'[id].token.value == t.token)
            && rows'[id].available ==
               if PutOff(t) then t.now + (if t.validPayload then t.took else 0) + Backoff(rows[id].attempts + 1)
               else rows[id].available
  {
  }

  /** The events handed to the publisher, and those it took. */
  function TurnSent(t: Turn, pick: Option<Id>): seq<(Id, bool)> {
    if Publishes(t, pick) then [(pick.value, t.publishOk)] else []
  }

  ghost predicate PicksOk(rows: map<Id, Row>, turns: seq<Turn>, picks: seq<Option<Id>>, scheduler: bool)
    requires |picks| == |turns|
  {
    turns != [] ==>
      var n := |turns| - 1;
      && PicksOk(rows, turns[..n], picks[..n], scheduler)
      && !Stopped(turns[..n])
      && (turns[n].claim.Refused? ==> picks[n].None?)
      && (!turns[n].claim.Refused? ==>
            Picked(RowsAfter(rows, turns[..n], picks[..n]), turns[n].locked, picks[n], turns[n].now, scheduler))
  }

  predicate Stopped(turns: seq<Turn>) {
    turns != [] && turns[|turns| - 1].cancelled != Never
  }

  function RowsAfter(rows: map<Id, Row>, turns: seq<Turn>, picks: seq<Option<Id>>): map<Id, Row>
    requires |picks| == |turns|
  {
    if turns == [] then rows
    else
      var n := |turns| - 1;
      var before := RowsAfter(rows, turns[..n], picks[..n]);
      if picks[n].Some? && picks[n].value !in before then before else TurnRows(before, turns[n], picks[n])
  }

  function SentBy(turns: seq<Turn>, picks: seq<Option<Id>>): seq<(Id, bool)>
    requires |picks| == |turns|
  {
    if turns == [] then [] else
      var n := |turns| - 1;
      SentBy(turns[..n], picks[..n]) + TurnSent(turns[n], picks[n])
  }

  /** One more turn. */
  lemma TurnAppended(rows: map<Id, Row>, turns: seq<Turn>, picks: seq<Option<Id>>, t: Turn, pick: Option<Id>,
                     scheduler: bool)
    requires |picks| == |turns| && !Stopped(turns) && PicksOk(rows, turns, picks, scheduler)
    requires if t.claim.Refused? then pick.None?
             else Picked(RowsAfter(rows, turns, picks), t.locked, pick, t.now, scheduler)
    ensures pick.Some? ==> pick.value in RowsAfter(rows, turns, picks)
    ensures PicksOk(rows, turns + [t], picks + [pick], scheduler)
    ensures RowsAfter(rows, turns + [t], picks + [pick]) == TurnRows(RowsAfter(rows, turns, picks), t, pick)
    ensures SentBy(turns + [t], picks + [pick]) == SentBy(turns, picks) + TurnSent(t, pick)
  {
    assert (turns + [t])[..|turns|] == turns && (picks + [pick])[..|picks|] == picks;
  }

  /** The turns so far took `start` to `rows` and sent `sent`. */
  ghost predicate Ran(start: map<Id, Row>, turns: seq<Turn>, picks: seq<Option<Id>>, scheduler: bool,
                      rows: map<Id, Row>, sent: seq<(Id, bool)>)
  {
    && |picks| == |turns| && PicksOk(start, turns, picks, scheduler)
    && rows == RowsAfter(start, turns, picks) && sent == SentBy(turns, picks)
  }

  lemma Spliced(earlier: seq<(Id, bool)>, later: seq<(Id, bool)>, n: nat)
    requires n <= |earlier| <= |later| && earlier == later[..|earlier|]
    ensures later[..n] == earlier[..n] && earlier[n..] + later[|earlier|..] == later[n..]
  {
  }

  class Worker {
    const store: Store
    /** What was handed to the publisher, with its answers. */
    var sent: seq<(Id, bool)>

    constructor (store: Store)
      ensures this.store == store && sent == []
    {
      this.store := store;
      sent := [];
    }

    /** One turn of the loop: claim one event, publish it, close its lease. The loop
        goes on unless the worker's context was cancelled. */
    method Deliver(t: Turn) returns (pick: Option<Id>, stop: bool)
      modifies this, store
      ensures t.claim.Refused? ==> pick.None?
      ensures !t.claim.Refused? ==> Picked(old(store.rows), t.locked, pick, t.now, store.scheduler)
      ensures pick.Some? ==> pick.value in old(store.rows)
      ensures store.rows == TurnRows(old(store.rows), t, pick)
      ensures sent == old(sent) + TurnSent(t, pick)
      ensures stop <==> t.cancelled != Never
    {
      pick, stop := None, !t.cancelled.Never?;
      if t.claim.Refused? {
        return;
      }
      var event := store.Claim(t.now, t.token, t.locked);
      if event.None? {
        return;
      }
      pick := Some(event.value.id);
      if t.claim.CommitLost? {
        return;
      }
      if t.cancelled.WhileClaiming? {
        stop := true;
        return;
      }
      var e := event.value;
      if !t.validPayload {
        if t.reached {
          var _ := store.Retry(e.id, e.token, t.now, Backoff(e.attempts));
        }
        return;
      }
      sent := sent + [(e.id, t.publishOk)];
      if !t.publishOk {
        if t.cancelled.WhilePublishing? {
          stop := true;
          return;
        }
        if t.reached {
          var _ := store.Retry(e.id, e.token, t.now + t.took, Backoff(e.attempts));
        }
        return;
      }
      if t.reached {
        var _ := store.MarkPublished(e.id, e.token);
      }
    }

    /** One more turn of a run. */
    method Continue(t: Turn, ghost start: map<Id, Row>, ghost turns: seq<Turn>, ghost picks: seq<Option<Id>>,
                    ghost before: seq<(Id, bool)>)
      returns (pick: Option<Id>, stop: bool)
      requires Ran(start, turns, picks, store.scheduler, store.rows, before) && !Stopped(turns)
      modifies this, store
      ensures |old(sent)| <= |sent| && old(sent) == sent[..|old(sent)|]
      ensures Ran(start, turns + [t], picks + [pick], store.scheduler, store.rows, before + sent[|old(sent)|..])
      ensures stop <==> t.cancelled != Never
    {
      pick, stop := Deliver(t);
      TurnAppended(start, turns, picks, t, pick, store.scheduler);
      assert sent[|old(sent)|..] == TurnSent(t, pick);
    }

    /** Takes turns up to and including the first in which its context is cancelled,
        none if it was cancelled before. Nothing else ends the loop. */
    method Run(cancelled: bool, turns: seq<Turn>) returns (picks: seq<Option<Id>>)
      modifies this, store
      ensures |picks| <= |turns|
      ensures forall i | 0 <= i < |picks| - 1 :: turns[i].cancelled == Never
      ensures cancelled ==> picks == []
      ensures !cancelled && |picks| < |turns| ==> picks != [] && turns[|picks| - 1].cancelled != Never
      ensures |old(sent)| <= |sent| && old(sent) == sent[..|old(sent)|]
      ensures Ran(old(store.rows), turns[..|picks|], picks, store.scheduler, store.rows, sent[|old(sent)|..])
    {
      picks := [];
      if !cancelled {
        picks := Loop(turns);
      }
    }

    method Loop(turns: seq<Turn>) returns (picks: seq<Option<Id>>)
      modifies this, store
      ensures |picks| <= |turns|
      ensures forall i | 0 <= i < |picks| - 1 :: turns[i].cancelled == Never
      ensures |picks| < |turns| ==> picks != [] && turns[|picks| - 1].cancelled != Never
      ensures |old(sent)| <= |sent| && old(sent) == sent[..|old(sent)|]
      ensures Ran(old(store.rows), turns[..|picks|], picks, store.scheduler, store.rows, sent[|old(sent)|..])
    {
      picks := [];
      var i := 0;
      var stop := false;
      ghost var n := |sent|;
      while i < |turns| && !stop
        invariant |picks| == i <= |turns|
        invariant n <= |sent| && old(sent) == sent[..n]
        invariant Ran(old(store.rows), turns[..i], picks, store.scheduler, store.rows, sent[n..])
        invariant stop <==> Stopped(turns[..i])
        invariant forall k | 0 <= k < i - 1 :: turns[k].cancelled == Never
        decreases |turns| - i
      {
        var pick;
        ghost var earlier := sent;
        pick, stop := Continue(turns[i], old(store.rows), turns[..i], picks, sent[n..]);
        Spliced(earlier, sent, n);
        assert turns[..i + 1] == turns[..i] + [turns[i]];
        picks := picks + [pick];
        i := i + 1;
      }
    }
  }

  // ─── Every run of the loop is a run of the protocol ─────────────────────────

  function TurnActions(now: Time, w: WorkerId, t: Turn, pick: Option<Id>): seq<Action> {
    [Tick(t.now - now)] +
    if pick.None? then [] else [Claim(w, pick.value, t.token)] + AfterClaim(w, t)
  }

  function AfterClaim(w: WorkerId, t: Turn): seq<Action> {
    if t.claim.CommitLost? || t.cancelled.WhileClaiming? then [Crash(w)]
    else if !t.validPayload then [RejectPayload(w), Retry(w, t.reached)]
    else [StartPublish(w), Tick(t.took), EndPublish(w, t.publishOk)] + [Closing(w, t)]
  }

  function Closing(w: WorkerId, t: Turn): Action {
    if t.publishOk then Mark(w, t.reached) else if t.cancelled.WhilePublishing? then Crash(w) else Retry(w, t.reached)
  }

  ghost predicate Leads(s: State, actions: seq<Action>, s': State, inclusive: bool) {
    Possible(s, actions, inclusive) && After(s, actions, inclusive) == s'
  }

  lemma LeadsThen(s: State, first: seq<Action>, mid: State, rest: seq<Action>, s': State, inclusive: bool)
    requires Leads(s, first, mid, inclusive) && Leads(mid, rest, s', inclusive)
    ensures Leads(s, first + rest, s', inclusive)
  {
    RunInParts(s, first, rest, inclusive);
  }

  lemma OneStep(s: State, a: Action, inclusive: bool)
    requires Enabled(s, a, inclusive)
    ensures Leads(s, [a], Do(s, a, inclusive), inclusive)
  {
    assert [a][1..] == [];
    assert After(Do(s, a, inclusive), [], inclusive) == Do(s, a, inclusive);
  }

  lemma TwoSteps(s: State, a: Action, b: Action, inclusive: bool)
    requires Enabled(s, a, inclusive) && Enabled(Do(s, a, inclusive), b, inclusive)
    ensures Leads(s, [a, b], Do(Do(s, a, inclusive), b, inclusive), inclusive)
  {
    OneStep(s, a, inclusive);
    OneStep(Do(s, a, inclusive), b, inclusive);
    LeadsThen(s, [a], Do(s, a, inclusive), [b], Do(Do(s, a, inclusive), b, inclusive), inclusive);
    assert [a] + [b] == [a, b];
  }

  /** No worker is in the middle of anything. */
  ghost predicate Quiet(s: State) {
    forall v | v in s.workers :: s.workers[v].Idle?
  }

  function EndOf(t: Turn, pick: Option<Id>): Time {
    if Publishes(t, pick) then t.now + t.took else t.now
  }

  function Taken(t: Turn, pick: Option<Id>): set<(Id, Token)> {
    if Publishes(t, pick) && t.publishOk then {(pick.value, t.token)} else {}
  }

  /** `s'` is `s` after the turn. */
  ghost predicate TurnDone(s: State, t: Turn, pick: Option<Id>, s': State)
    requires pick.Some? ==> pick.value in s.rows
  {
    && s'.rows == TurnRows(s.rows, t, pick)
    && s'.now == EndOf(t, pick)
    && s'.confirmed == s.confirmed + Taken(t, pick)
    && s.tokens <= s'.tokens <= s.tokens + {t.token}
    && Quiet(s')
  }

  /** `w` has just claimed `e`; nobody else does anything. */
  ghost predicate JustClaimed(c: State, w: WorkerId, e: Event) {
    && w in c.workers && c.workers[w] == Claimed(e)
    && (forall v | v in c.workers && v != w :: c.workers[v].Idle?)
    && Owns(c.rows, e.id, e.token)
  }

  /** How the turn ends, seen from the state after the claim. */
  function Closed(c: State, w: WorkerId, e: Event, t: Turn): State {
    var idle := c.workers[w := Idle];
    if t.claim.CommitLost? || t.cancelled.WhileClaiming? then c.(workers := idle)
    else if !t.validPayload then
      c.(workers := idle,
         rows := if t.reached then RetriedRows(c.rows, e.id, e.token, c.now + Backoff(e.attempts)) else c.rows)
    else if t.publishOk then
      c.(now := c.now + t.took, workers := idle, confirmed := c.confirmed + {(e.id, e.token)},
         rows := if t.reached then MarkedRows(c.rows, e.id, e.token) else c.rows)
    else
      c.(now := c.now + t.took, workers := idle,
         rows := if t.cancelled.WhilePublishing? || !t.reached then c.rows
                 else RetriedRows(c.rows, e.id, e.token, c.now + t.took + Backoff(e.attempts)))
  }

  lemma PublishLeads(c: State, w: WorkerId, e: Event, t: Turn, inclusive: bool)
    requires JustClaimed(c, w, e) && 0 <= t.took <= PUBLISH_TIMEOUT
    ensures Leads(c, [StartPublish(w), Tick(t.took), EndPublish(w, t.publishOk)],
                  c.(now := c.now + t.took, workers := c.workers[w := if t.publishOk then Confirmed(e) else Failed(e)],
                     confirmed := c.confirmed + if t.publishOk then {(e.id, e.token)} else {}), inclusive)
  {
    var c1 := Do(c, StartPublish(w), inclusive);
    OneStep(c, StartPublish(w), inclusive);
    var c2 := c1.(now := c1.now + t.took);
    var c3 := Do(c2, EndPublish(w, t.publishOk), inclusive);
    TwoSteps(c1, Tick(t.took), EndPublish(w, t.publishOk), inclusive);
    LeadsThen(c, [StartPublish(w)], c1, [Tick(t.took), EndPublish(w, t.publishOk)], c3, inclusive);
    assert [StartPublish(w)] + [Tick(t.took), EndPublish(w, t.publishOk)] ==
           [StartPublish(w), Tick(t.took), EndPublish(w, t.publishOk)];
    assert c1.workers[w := c3.workers[w]] == c.workers[w := c3.workers[w]];
    assert c3.confirmed == c.confirmed + if t.publishOk then {(e.id, e.token)} else {};
  }

  lemma AfterClaimLeads(c: State, w: WorkerId, e: Event, t: Turn, inclusive: bool)
    requires JustClaimed(c, w, e) && 0 <= t.took <= PUBLISH_TIMEOUT
    ensures Leads(c, AfterClaim(w, t), Closed(c, w, e, t), inclusive)
  {
    if t.claim.CommitLost? || t.cancelled.WhileClaiming? {
      OneStep(c, Crash(w), inclusive);
    } else if !t.validPayload {
      TwoSteps(c, RejectPayload(w), Retry(w, t.reached), inclusive);
      assert c.workers[w := Failed(e)][w := Idle] == c.workers[w := Idle];
    } else {
      PublishLeads(c, w, e, t, inclusive);
      var x := if t.publishOk then Confirmed(e) else Failed(e);
      var d := c.(now := c.now + t.took, workers := c.workers[w := x],
                  confirmed := c.confirmed + if t.publishOk then {(e.id, e.token)} else {});
      OneStep(d, Closing(w, t), inclusive);
      assert d.workers[w := Idle] == c.workers[w := Idle];
      assert c.confirmed + {} == c.confirmed;
      assert Do(d, Closing(w, t), inclusive) == Closed(c, w, e, t);
      LeadsThen(c, [StartPublish(w), Tick(t.took), EndPublish(w, t.publishOk)], d, [Closing(w, t)], Closed(c, w, e, t),
                inclusive);
    }
  }

  /** `c` is `s` at time `t.now` with the picked row leased to `w`. */
  ghost predicate ClaimedFrom(s: State, w: WorkerId, t: Turn, id: Id, c: State)
    requires id in s.rows
  {
    && c.rows == ClaimedRows(s.rows, Some(id), t.token, t.now)
    && c.now == t.now && c.tokens == s.tokens + {t.token} && c.confirmed == s.confirmed
    && c.workers == s.workers[w := Claimed(EventOf(s.rows, id, t.token, t.now))]
  }

  lemma ClosedIsDone(s: State, w: WorkerId, t: Turn, id: Id, c: State)
    requires Quiet(s) && id in s.rows && !t.claim.Refused? && ClaimedFrom(s, w, t, id, c)
    ensures TurnDone(s, t, Some(id), Closed(c, w, EventOf(s.rows, id, t.token, t.now), t))
  {
    var e := EventOf(s.rows, id, t.token, t.now);
    var s' := Closed(c, w, e, t);
    assert s'.confirmed == s.confirmed + Taken(t, Some(id));
    assert s'.workers == c.workers[w := Idle];
  }

  lemma ClaimLeads(s: State, w: WorkerId, t: Turn, id: Id, scheduler: bool) returns (c: State)
    requires Quiet(s) && s.now <= t.now && t.token !in s.tokens
    requires id in s.rows && Claimable(s.rows[id], t.now, scheduler)
    ensures Leads(s, [Tick(t.now - s.now), Claim(w, id, t.token)], c, scheduler) && ClaimedFrom(s, w, t, id, c)
  {
    var s1 := Do(s, Tick(t.now - s.now), scheduler);
    c := Do(s1, Claim(w, id, t.token), scheduler);
    TwoSteps(s, Tick(t.now - s.now), Claim(w, id, t.token), scheduler);
  }

  /** One turn of the loop is a run of the protocol, with the same rows. */
  lemma TurnRefines(s: State, w: WorkerId, t: Turn, pick: Option<Id>, scheduler: bool)
    returns (s': State)
    requires Quiet(s) && s.now <= t.now && 0 <= t.took <= PUBLISH_TIMEOUT && t.token !in s.tokens
    requires if t.claim.Refused? then pick.None? else Picked(s.rows, t.locked, pick, t.now, scheduler)
    ensures pick.Some? ==> pick.value in s.rows
    ensures Leads(s, TurnActions(s.now, w, t, pick), s', scheduler)
    ensures TurnDone(s, t, pick, s')
  {
    var tick := Tick(t.now - s.now);
    if pick.None? {
      s' := Do(s, tick, scheduler);
      OneStep(s, tick, scheduler);
      assert [tick] + [] == [tick];
      assert s'.confirmed == s.confirmed + Taken(t, pick);
    } else {
      var id := pick.value;
      var e := EventOf(s.rows, id, t.token, t.now);
      var c := ClaimLeads(s, w, t, id, scheduler);
      s' := Closed(c, w, e, t);
      assert TurnDone(s, t, pick, s') by { ClosedIsDone(s, w, t, id, c); }
      assert Leads(c, AfterClaim(w, t), s', scheduler) by { AfterClaimLeads(c, w, e, t, scheduler); }
      var claim := Claim(w, id, t.token);
      LeadsThen(s, [tick, claim], c, AfterClaim(w, t), s', scheduler);
      assert [tick, claim] + AfterClaim(w, t) == TurnActions(s.now, w, t, pick);
    }
  }

  function RunActions(now: Time, w: WorkerId, turns: seq<Turn>, picks: seq<Option<Id>>): seq<Action>
    requires |picks| == |turns|
  {
    if turns == [] then [] else
      var n := |turns| - 1;
      RunActions(now, w, turns[..n], picks[..n])
        + TurnActions(RunEnd(now, turns[..n], picks[..n]), w, turns[n], picks[n])
  }

  function RunEnd(now: Time, turns: seq<Turn>, picks: seq<Option<Id>>): Time
    requires |picks| == |turns|
  {
    if turns == [] then now else EndOf(turns[|turns| - 1], picks[|turns| - 1])
  }

  function RunTokens(turns: seq<Turn>): set<Token> {
    set i | 0 <= i < |turns| :: turns[i].token
  }

  /** What the environment provides: a clock that moves forward, publishes that end
      within their timeout, and lease tokens that are new. */
  ghost predicate Plausible(s: State, turns: seq<Turn>, picks: seq<Option<Id>>)
    requires |picks| == |turns|
  {
    && (forall i | 0 <= i < |turns| :: 0 <= turns[i].took <= PUBLISH_TIMEOUT && turns[i].token !in s.tokens)
    && (forall i | 0 <= i < |turns| :: RunEnd(s.now, turns[..i], picks[..i]) <= turns[i].now)
    && forall i, j | 0 <= i < j < |turns| :: turns[i].token != turns[j].token
  }

  lemma PlausibleBefore(s: State, turns: seq<Turn>, picks: seq<Option<Id>>, n: nat)
    requires |picks| == |turns| == n + 1 && Plausible(s, turns, picks)
    ensures Plausible(s, turns[..n], picks[..n]) && RunEnd(s.now, turns[..n], picks[..n]) <= turns[n].now
    ensures turns[n].token !in s.tokens + RunTokens(turns[..n])
    ensures RunTokens(turns) == RunTokens(turns[..n]) + {turns[n].token}
  {
    forall i | 0 <= i < n
      ensures RunEnd(s.now, turns[..n][..i], picks[..n][..i]) <= turns[..n][i].now
    {
      assert turns[..n][..i] == turns[..i] && picks[..n][..i] == picks[..i];
    }
    forall k | k in RunTokens(turns) ensures k in RunTokens(turns[..n]) + {turns[n].token} {
      var i :| 0 <= i <= n && turns[i].token == k;
      assert i < n ==> turns[..n][i].token == k;
    }
    forall k | k in RunTokens(turns[..n]) ensures k in RunTokens(turns) && k != turns[n].token {
      var i :| 0 <= i < n && turns[..n][i].token == k;
      assert turns[i].token == k;
    }
  }

  /** Every run of the loop, whatever it meets, is a run of the protocol that
      leaves the same rows; so all that holds of the protocol holds of the loop. */
  lemma {:induction false} RunRefines(s: State, w: WorkerId, turns: seq<Turn>, picks: seq<Option<Id>>, scheduler: bool)
    returns (s': State)
    requires |picks| == |turns| && Quiet(s)
    requires PicksOk(s.rows, turns, picks, scheduler) && Plausible(s, turns, picks)
    ensures Leads(s, RunActions(s.now, w, turns, picks), s', scheduler)
    ensures s'.rows == RowsAfter(s.rows, turns, picks) && s'.now == RunEnd(s.now, turns, picks) && Quiet(s')
    ensures s'.tokens <= s.tokens + RunTokens(turns)
  {
    if turns == [] {
      s' := s;
    } else {
      var n := |turns| - 1;
      PlausibleBefore(s, turns, picks, n);
      var mid := RunRefines(s, w, turns[..n], picks[..n], scheduler);
      s' := TurnRefines(mid, w, turns[n], picks[n], scheduler);
      LeadsThen(s, RunActions(s.now, w, turns[..n], picks[..n]), mid, TurnActions(mid.now, w, turns[n], picks[n]), s',
                scheduler);
    }
  }
}
