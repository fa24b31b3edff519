/** The outbox lease protocol: several workers claim, publish and mark rows, with
    leases that expire, workers that crash, and marks that may not arrive.

    The two stores differ in one comparison: a lease ending at `t` can be taken
    over at `t` in the Scheduler's store (`inclusive`) and only after `t` in the
    Gateway's. Times are in seconds. */
module Outbox {
  import opened Wrappers

  type Id = nat
  type Token = nat
  type WorkerId = nat
  type Time = int

  const LEASE: Time := 60
  const PUBLISH_TIMEOUT: Time := 10
  const MIN_BACKOFF: Time := 1
  const MAX_BACKOFF: Time := 60

  function Shifted(n: nat): Time {
    if n == 0 then 1 else 2 * Shifted(n - 1)
  }

  /** The delay before attempt number `attempts` + 1. */
  function Backoff(attempts: int): Time {
    var n := if attempts < 0 then 0 else if attempts < 6 then attempts else 6;
    var d := MIN_BACKOFF * Shifted(n);
    if d > MAX_BACKOFF then MAX_BACKOFF else d
  }

  /** Bounded for every attempt count, and doubling up to the bound. */
  lemma BackoffBounded(attempts: int)
    ensures 1 <= Backoff(attempts) <= 60 && (attempts <= 0 ==> Backoff(attempts) == 1)
    ensures attempts >= 0 ==>
              Backoff(attempts + 1) == if 2 * Backoff(attempts) > 60 then 60 else 2 * Backoff(attempts)
  {
    assert Shifted(0) == 1 && Shifted(1) == 2 && Shifted(2) == 4 && Shifted(3) == 8;
    assert Shifted(4) == 16 && Shifted(5) == 32 && Shifted(6) == 64;
  }

  // ─── Rows ───────────────────────────────────────────────────────────────────

  datatype Row = Row(created: Time, available: Time, attempts: nat, token: Option<Token>, lockedUntil: Option<Time>,
                     published: bool)

  predicate Expired(end: Time, now: Time, inclusive: bool) {
    if inclusive then end <= now else end < now
  }

  predicate Claimable(row: Row, now: Time, inclusive: bool) {
    !row.published && row.available <= now && (row.lockedUntil.Some? ==> Expired(row.lockedUntil.value, now, inclusive))
  }

  function NewRow(now: Time): Row {
    Row(now, now, 0, None, None, false)
  }

  function ClaimedRow(row: Row, token: Token, now: Time): Row {
    row.(token := Some(token), lockedUntil := Some(now + LEASE), attempts := row.attempts + 1)
  }

  /** `WHERE id=$1 AND lease_token=$2 AND published_at IS NULL`. */
  predicate Owns(rows: map<Id, Row>, id: Id, token: Token) {
    id in rows && rows[id].token == Some(token) && !rows[id].published
  }

  function MarkedRows(rows: map<Id, Row>, id: Id, token: Token): map<Id, Row> {
    if Owns(rows, id, token) then rows[id := rows[id].(published := true, token := None, lockedUntil := None)] else rows
  }

  function RetriedRows(rows: map<Id, Row>, id: Id, token: Token, available: Time): map<Id, Row> {
    if Owns(rows, id, token) then rows[id := rows[id].(available := available, token := None, lockedUntil := None)]
    else rows
  }

  // ─── The protocol ───────────────────────────────────────────────────────────

  /** An event as a worker holds it. `leaseEnd` is when its lease runs out. */
  datatype Event = Event(id: Id, token: Token, attempts: nat, leaseEnd: Time)

  datatype Worker =
    | Idle
    | Claimed(event: Event)
    | Publishing(event: Event, started: Time)
    | Confirmed(event: Event)
    | Failed(event: Event)

  /** `confirmed`: the publishes that succeeded; `tokens`: the tokens handed out. */
  datatype State = State(now: Time, rows: map<Id, Row>, workers: map<WorkerId, Worker>,
                         confirmed: set<(Id, Token)>, tokens: set<Token>)

  datatype Action =
    | Insert(id: Id)
    | Tick(d: Time)
    | Claim(w: WorkerId, id: Id, token: Token)
    | RejectPayload(w: WorkerId)
    | StartPublish(w: WorkerId)
    | EndPublish(w: WorkerId, ok: bool)
    | Mark(w: WorkerId, reached: bool)
    | Retry(w: WorkerId, reached: bool)
    | Crash(w: WorkerId)

  function WorkerOf(s: State, w: WorkerId): Worker {
    if w in s.workers then s.workers[w] else Idle
  }

  predicate Enabled(s: State, a: Action, inclusive: bool) {
    match a
    case Insert(id) => id !in s.rows
    case Tick(d) =>
      d >= 0 && forall w | w in s.workers && s.workers[w].Publishing? ::
        s.now + d <= s.workers[w].started + PUBLISH_TIMEOUT
    case Claim(w, id, token) =>
      WorkerOf(s, w).Idle? && id in s.rows && Claimable(s.rows[id], s.now, inclusive) && token !in s.tokens
    case RejectPayload(w) => WorkerOf(s, w).Claimed?
    case StartPublish(w) => WorkerOf(s, w).Claimed?
    case EndPublish(w, _) => WorkerOf(s, w).Publishing?
    case Mark(w, _) => WorkerOf(s, w).Confirmed?
    case Retry(w, _) => WorkerOf(s, w).Failed?
    case Crash(w) => true
  }

  function Do(s: State, a: Action, inclusive: bool): State
    requires Enabled(s, a, inclusive)
  {
    match a
    case Insert(id) => s.(rows := s.rows[id := NewRow(s.now)])
    case Tick(d) => s.(now := s.now + d)
    case Claim(w, id, token) =>
      var row := ClaimedRow(s.rows[id], token, s.now);
      s.(rows := s.rows[id := row], tokens := s.tokens + {token},
         workers := s.workers[w := Claimed(Event(id, token, row.attempts, s.now + LEASE))])
    case RejectPayload(w) => s.(workers := s.workers[w := Failed(s.workers[w].event)])
    case StartPublish(w) => s.(workers := s.workers[w := Publishing(s.workers[w].event, s.now)])
    case EndPublish(w, ok) =>
      var e := s.workers[w].event;
      if ok then s.(workers := s.workers[w := Confirmed(e)], confirmed := s.confirmed + {(e.id, e.token)})
      else s.(workers := s.workers[w := Failed(e)])
    case Mark(w, reached) =>
      var e := s.workers[w].event;
      s.(workers := s.workers[w := Idle], rows := if reached then MarkedRows(s.rows, e.id, e.token) else s.rows)
    case Retry(w, reached) =>
      var e := s.workers[w].event;
      s.(workers := s.workers[w := Idle],
         rows := if reached then RetriedRows(s.rows, e.id, e.token, s.now + Backoff(e.attempts)) else s.rows)
    case Crash(w) => s.(workers := s.workers[w := Idle])
  }

  // ─── Invariant ──────────────────────────────────────────────────────────────

  ghost predicate RowOk(s: State, row: Row) {
    && (row.token.Some? <==> row.lockedUntil.Some?)
    && (row.published ==> row.token.None?)
    && (row.token.Some? ==> row.token.value in s.tokens)
    && row.available <= s.now + MAX_BACKOFF
    && (row.lockedUntil.Some? ==> row.lockedUntil.value <= s.now + LEASE)
  }

  ghost predicate RowsOk(s: State) {
    && (forall id | id in s.rows :: RowOk(s, s.rows[id]))
    && forall id | id in s.rows && s.rows[id].published :: WasConfirmed(s, id)
  }

  ghost predicate WasConfirmed(s: State, id: Id) {
    exists t :: (id, t) in s.confirmed
  }

  predicate Holds(s: State, w: WorkerId) {
    w in s.workers && !s.workers[w].Idle?
  }

  predicate Before(x: Worker) {
    x.Claimed? || x.Publishing?
  }

  /** Until its publish has ended, a worker's lease is in force, or it has run out. */
  ghost predicate LeaseOk(s: State, x: Worker, inclusive: bool)
    requires !x.Idle? && x.event.id in s.rows
  {
    var row := s.rows[x.event.id];
    && (row.token == Some(x.event.token) ==> row.lockedUntil == Some(x.event.leaseEnd))
    && (Before(x) ==> row.token == Some(x.event.token) || Expired(x.event.leaseEnd, s.now, inclusive))
  }

  ghost predicate WorkersOk(s: State, inclusive: bool) {
    && (forall w | Holds(s, w) ::
          var x := s.workers[w];
          x.event.id in s.rows && x.event.token in s.tokens && LeaseOk(s, x, inclusive)
          && (x.Confirmed? ==> (x.event.id, x.event.token) in s.confirmed)
          && (x.Publishing? ==> s.now <= x.started + PUBLISH_TIMEOUT))
    && forall v, w | Holds(s, v) && Holds(s, w) && v != w :: s.workers[v].event.token != s.workers[w].event.token
  }

  ghost predicate Inv(s: State, inclusive: bool) {
    RowsOk(s) && WorkersOk(s, inclusive)
  }

  lemma TickKeeps(s: State, d: Time, inclusive: bool)
    requires Inv(s, inclusive) && Enabled(s, Tick(d), inclusive)
    ensures Inv(Do(s, Tick(d), inclusive), inclusive)
  {
    var s' := Do(s, Tick(d), inclusive);
    forall w | Holds(s', w) ensures LeaseOk(s', s'.workers[w], inclusive) {
      assert Holds(s, w);
    }
    forall id | id in s.rows && s.rows[id].published ensures WasConfirmed(s', id) {
      assert WasConfirmed(s, id);
    }
  }

  lemma InsertKeeps(s: State, id: Id, inclusive: bool)
    requires Inv(s, inclusive) && Enabled(s, Insert(id), inclusive)
    ensures Inv(Do(s, Insert(id), inclusive), inclusive)
  {
    var s' := Do(s, Insert(id), inclusive);
    forall w | Holds(s', w) ensures Holds(s, w) {
    }
    forall x | x in s'.rows && s'.rows[x].published ensures WasConfirmed(s', x) {
      assert WasConfirmed(s, x);
    }
  }

  lemma ClaimKeeps(s: State, w: WorkerId, id: Id, token: Token, inclusive: bool)
    requires Inv(s, inclusive) && Enabled(s, Claim(w, id, token), inclusive)
    ensures Inv(Do(s, Claim(w, id, token), inclusive), inclusive)
  {
    var s' := Do(s, Claim(w, id, token), inclusive);
    forall v | Holds(s', v) && v != w
      ensures LeaseOk(s', s'.workers[v], inclusive) && s'.workers[v].event.token != token
    {
      assert Holds(s, v) && LeaseOk(s, s.workers[v], inclusive);
    }
    forall x | x in s'.rows && s'.rows[x].published ensures WasConfirmed(s', x) {
      assert WasConfirmed(s, x);
    }
  }

  /** A worker moves on without touching the rows. */
  lemma WorkerKeeps(s: State, w: WorkerId, x: Worker, confirmed': set<(Id, Token)>, inclusive: bool)
    requires Inv(s, inclusive) && s.confirmed <= confirmed'
    requires x.Idle? || (Holds(s, w) && x.event == s.workers[w].event && (Before(x) ==> Before(s.workers[w]))
                         && (x.Confirmed? ==> (x.event.id, x.event.token) in confirmed')
                         && (x.Publishing? ==> s.now <= x.started + PUBLISH_TIMEOUT))
    ensures Inv(s.(workers := s.workers[w := x], confirmed := confirmed'), inclusive)
  {
    var s' := s.(workers := s.workers[w := x], confirmed := confirmed');
    forall v | Holds(s', v) ensures Holds(s, v) && LeaseOk(s', s'.workers[v], inclusive) {
      assert LeaseOk(s, s.workers[v], inclusive);
    }
    forall id | id in s.rows && s.rows[id].published ensures WasConfirmed(s', id) {
      assert WasConfirmed(s, id);
      var t :| (id, t) in s.confirmed;
      assert (id, t) in s'.confirmed;
    }
  }

  /** The owner of a row's current token gives it up. */
  lemma ReleaseKeeps(s: State, w: WorkerId, row: Row, inclusive: bool)
    requires Inv(s, inclusive) && Holds(s, w) && Owns(s.rows, s.workers[w].event.id, s.workers[w].event.token)
    requires row.token.None? && row.lockedUntil.None? && row.available <= s.now + MAX_BACKOFF
    requires row.published ==> s.workers[w].Confirmed?
    ensures Inv(s.(workers := s.workers[w := Idle], rows := s.rows[s.workers[w].event.id := row]), inclusive)
  {
    var e := s.workers[w].event;
    var s' := s.(workers := s.workers[w := Idle], rows := s.rows[e.id := row]);
    forall v | Holds(s', v) ensures Holds(s, v) && LeaseOk(s', s'.workers[v], inclusive) {
      assert v != w && LeaseOk(s, s.workers[v], inclusive);
      assert s.workers[v].event.token != e.token;
    }
    forall id | id in s'.rows && s'.rows[id].published ensures WasConfirmed(s', id) {
      if id == e.id {
        assert (e.id, e.token) in s'.confirmed;
      } else {
        assert WasConfirmed(s, id);
      }
    }
  }

  lemma StepKeeps(s: State, a: Action, inclusive: bool)
    requires Inv(s, inclusive) && Enabled(s, a, inclusive)
    ensures Inv(Do(s, a, inclusive), inclusive)
  {
    match a
    case Insert(id) => InsertKeeps(s, id, inclusive);
    case Tick(d) => TickKeeps(s, d, inclusive);
    case Claim(w, id, token) => ClaimKeeps(s, w, id, token, inclusive);
    case RejectPayload(w) => WorkerKeeps(s, w, Failed(s.workers[w].event), s.confirmed, inclusive);
    case StartPublish(w) => WorkerKeeps(s, w, Publishing(s.workers[w].event, s.now), s.confirmed, inclusive);
    case EndPublish(w, ok) =>
      var e := s.workers[w].event;
      if ok {
        WorkerKeeps(s, w, Confirmed(e), s.confirmed + {(e.id, e.token)}, inclusive);
      } else {
        WorkerKeeps(s, w, Failed(e), s.confirmed, inclusive);
      }
    case Mark(w, reached) =>
      var e := s.workers[w].event;
      if reached && Owns(s.rows, e.id, e.token) {
        ReleaseKeeps(s, w, s.rows[e.id].(published := true, token := None, lockedUntil := None), inclusive);
      } else {
        WorkerKeeps(s, w, Idle, s.confirmed, inclusive);
      }
    case Retry(w, reached) =>
      var e := s.workers[w].event;
      if reached && Owns(s.rows, e.id, e.token) {
        BackoffBounded(e.attempts);
        ReleaseKeeps(s, w, s.rows[e.id].(available := s.now + Backoff(e.attempts), token := None, lockedUntil := None),
                     inclusive);
      } else {
        WorkerKeeps(s, w, Idle, s.confirmed, inclusive);
      }
    case Crash(w) => WorkerKeeps(s, w, Idle, s.confirmed, inclusive);
  }

  // ─── Safety ─────────────────────────────────────────────────────────────────

  ghost predicate Possible(s: State, actions: seq<Action>, inclusive: bool)
    decreases |actions|
  {
    actions != [] ==>
      Enabled(s, actions[0], inclusive) && Possible(Do(s, actions[0], inclusive), actions[1..], inclusive)
  }

  ghost function After(s: State, actions: seq<Action>, inclusive: bool): State
    requires Possible(s, actions, inclusive)
    decreases |actions|
  {
    if actions == [] then s else After(Do(s, actions[0], inclusive), actions[1..], inclusive)
  }

  lemma {:induction false} RunKeeps(s: State, actions: seq<Action>, inclusive: bool)
    requires Inv(s, inclusive) && Possible(s, actions, inclusive)
    ensures Inv(After(s, actions, inclusive), inclusive)
    decreases |actions|
  {
    if actions != [] {
      StepKeeps(s, actions[0], inclusive);
      RunKeeps(Do(s, actions[0], inclusive), actions[1..], inclusive);
    }
  }

  function Start(now: Time): State {
    State(now, map[], map[], {}, {})
  }

  ghost predicate Reachable(s: State, inclusive: bool) {
    exists now, actions :: Possible(Start(now), actions, inclusive) && After(Start(now), actions, inclusive) == s
  }

  lemma ReachableInv(s: State, inclusive: bool)
    requires Reachable(s, inclusive)
    ensures Inv(s, inclusive)
  {
    var now, actions :| Possible(Start(now), actions, inclusive) && After(Start(now), actions, inclusive) == s;
    RunKeeps(Start(now), actions, inclusive);
  }

  /** A new event can be claimed at once, for its first attempt. */
  lemma InsertedIsReady(s: State, inclusive: bool, id: Id)
    requires Enabled(s, Insert(id), inclusive)
    ensures var s' := Do(s, Insert(id), inclusive);
            && Claimable(s'.rows[id], s'.now, inclusive) && s'.rows[id].attempts == 0 && s'.rows[id].created == s.now
            && forall x | x in s.rows :: s'.rows[x] == s.rows[x]
  {
  }

  /** A claim keeps everybody out for a minute, and counts as an attempt. */
  lemma ClaimLeases(s: State, inclusive: bool, w: WorkerId, id: Id, token: Token, later: Time)
    requires Enabled(s, Claim(w, id, token), inclusive) && s.now <= later
    ensures var s' := Do(s, Claim(w, id, token), inclusive);
            && (Claimable(s'.rows[id], later, inclusive) <==>
                  if inclusive then s.now + 60 <= later else s.now + 60 < later)
            && s'.rows[id].attempts == s.rows[id].attempts + 1 && s'.rows[id].token == Some(token)
            && s'.workers[w] == Claimed(Event(id, token, s.rows[id].attempts + 1, s.now + 60))
  {
  }

  /** An owner that gives up puts the event off for exactly the back-off of its attempt. */
  lemma RetryWaits(s: State, inclusive: bool, w: WorkerId, later: Time)
    requires Reachable(s, inclusive) && Enabled(s, Retry(w, true), inclusive) && Carries(s, s.workers[w])
    ensures var e := s.workers[w].event;
            Claimable(Do(s, Retry(w, true), inclusive).rows[e.id], later, inclusive) <==>
              s.now + Backoff(e.attempts) <= later
  {
    ReachableInv(s, inclusive);
    assert Holds(s, w) && RowOk(s, s.rows[s.workers[w].event.id]);
  }

  /** Published is terminal: no action changes a published row in any way. */
  lemma PublishedIsTerminal(s: State, a: Action, inclusive: bool, id: Id)
    requires Enabled(s, a, inclusive) && id in s.rows && s.rows[id].published
    ensures id in Do(s, a, inclusive).rows && Do(s, a, inclusive).rows[id] == s.rows[id]
  {
  }

  /** A row becomes published only by the mark of a worker whose own publish
      succeeded under the token the row still carries. */
  lemma PublishedOnlyAfterConfirm(s: State, a: Action, inclusive: bool, id: Id)
    requires Reachable(s, inclusive) && Enabled(s, a, inclusive) && id in s.rows && !s.rows[id].published
    requires id in Do(s, a, inclusive).rows && Do(s, a, inclusive).rows[id].published
    ensures a.Mark? && a.reached && s.workers[a.w].event.id == id
    ensures s.rows[id].token == Some(s.workers[a.w].event.token) && (id, s.workers[a.w].event.token) in s.confirmed
  {
    ReachableInv(s, inclusive);
    if a.Mark? {
      assert Holds(s, a.w);
    }
  }

  /** A superseded token changes nothing. */
  lemma SupersededTokenIsPowerless(rows: map<Id, Row>, id: Id, token: Token, available: Time)
    requires id in rows ==> rows[id].token != Some(token)
    ensures MarkedRows(rows, id, token) == rows && RetriedRows(rows, id, token, available) == rows
  {
  }

  /** The publish must end while the lease still keeps others out. */
  predicate Timely(x: Worker, inclusive: bool)
    requires x.Publishing?
  {
    !Expired(x.event.leaseEnd, x.started + PUBLISH_TIMEOUT, inclusive)
  }

  /** The worker's token is still the row's. */
  predicate Carries(s: State, x: Worker)
    requires !x.Idle?
  {
    x.event.id in s.rows && s.rows[x.event.id].token == Some(x.event.token)
  }

  /** No event is published by two workers at once, provided that a worker whose lease
      was taken over had started in time; the current owner may start when it likes. */
  lemma OnePublisher(s: State, inclusive: bool, v: WorkerId, w: WorkerId)
    requires Reachable(s, inclusive)
    requires v in s.workers && w in s.workers && s.workers[v].Publishing? && s.workers[w].Publishing?
    requires s.workers[v].event.id == s.workers[w].event.id
    requires Carries(s, s.workers[v]) || Timely(s.workers[v], inclusive)
    requires Carries(s, s.workers[w]) || Timely(s.workers[w], inclusive)
    ensures v == w
  {
    ReachableInv(s, inclusive);
    assert Holds(s, v) && Holds(s, w);
    assert LeaseOk(s, s.workers[v], inclusive) && LeaseOk(s, s.workers[w], inclusive);
  }

  // ─── Recovery ───────────────────────────────────────────────────────────────

  /** Whatever crashed or failed, every unpublished row is claimable again within
      60 seconds: at 60 in the Scheduler's store, after 60 in the Gateway's. */
  lemma BoundedRecovery(s: State, inclusive: bool, id: Id, later: Time)
    requires Reachable(s, inclusive) && id in s.rows && !s.rows[id].published
    requires if inclusive then s.now + 60 <= later else s.now + 60 < later
    ensures Claimable(s.rows[id], later, inclusive)
  {
    ReachableInv(s, inclusive);
    assert RowOk(s, s.rows[id]);
  }

  // ─── Why a publish must start in time ───────────────────────────────────────

  /** Two workers publishing one event. */
  ghost predicate Clash(s: State, v: WorkerId, w: WorkerId) {
    && v in s.workers && w in s.workers && v != w && s.workers[v].Publishing? && s.workers[w].Publishing?
    && s.workers[v].event.id == s.workers[w].event.id
  }

  const FIRST: Event := Event(0, 0, 1, LEASE)

  /** A worker claims the one event at time 0 … */
  function ClaimedState(): State {
    State(0, map[0 := ClaimedRow(NewRow(0), 0, 0)], map[0 := Claimed(FIRST)], {}, {0})
  }

  /** … and from `delay` on publishes it for the full timeout. */
  function LateState(delay: Time): State {
    State(delay + PUBLISH_TIMEOUT, map[0 := ClaimedRow(NewRow(0), 0, 0)], map[0 := Publishing(FIRST, delay)], {}, {0})
  }

  const CLAIM_FIRST: seq<Action> := [Insert(0), Claim(0, 0, 0)]
  const TAKE_OVER: seq<Action> := [Claim(1, 0, 1), StartPublish(1)]

  function PublishLate(delay: Time): seq<Action> {
    [Tick(delay), StartPublish(0), Tick(PUBLISH_TIMEOUT)]
  }

  /** The run in which a worker starts `delay` seconds after its claim and its
      publish takes the full timeout, while another claims as soon as it may. */
  function LateRun(delay: Time): seq<Action> {
    CLAIM_FIRST + (PublishLate(delay) + TAKE_OVER)
  }

  lemma {:induction false} RunInParts(s: State, first: seq<Action>, rest: seq<Action>, inclusive: bool)
    requires Possible(s, first, inclusive)
    ensures Possible(s, first + rest, inclusive) <==> Possible(After(s, first, inclusive), rest, inclusive)
    ensures Possible(s, first + rest, inclusive) ==>
              After(s, first + rest, inclusive) == After(After(s, first, inclusive), rest, inclusive)
    decreases |first|
  {
    if first == [] {
      assert first + rest == rest;
    } else {
      assert (first + rest)[1..] == first[1..] + rest;
      RunInParts(Do(s, first[0], inclusive), first[1..], rest, inclusive);
    }
  }

  lemma ClaimFirst(inclusive: bool)
    ensures Possible(Start(0), CLAIM_FIRST, inclusive) && After(Start(0), CLAIM_FIRST, inclusive) == ClaimedState()
  {
    var s := Do(Start(0), Insert(0), inclusive);
    assert s.rows == map[0 := NewRow(0)];
    var s' := Do(s, Claim(0, 0, 0), inclusive);
    assert s'.rows == ClaimedState().rows && s'.workers == ClaimedState().workers;
    assert CLAIM_FIRST[1..] == [Claim(0, 0, 0)];
    assert Possible(s, [Claim(0, 0, 0)], inclusive) && After(s, [Claim(0, 0, 0)], inclusive) == s';
  }

  lemma PublishesLate(delay: Time, inclusive: bool)
    requires delay >= 0
    ensures Possible(ClaimedState(), PublishLate(delay), inclusive)
    ensures After(ClaimedState(), PublishLate(delay), inclusive) == LateState(delay)
  {
    var run := PublishLate(delay);
    var s1 := Do(ClaimedState(), Tick(delay), inclusive);
    var s2 := Do(s1, StartPublish(0), inclusive);
    assert s2.workers == LateState(delay).workers;
    var s3 := Do(s2, Tick(PUBLISH_TIMEOUT), inclusive);
    var last := [Tick(PUBLISH_TIMEOUT)];
    assert run[1..][1..] == last && run[1..][0] == run[1] && last[1..] == [];
    assert Possible(s2, last, inclusive);
    assert After(s2, last, inclusive) == After(s3, [], inclusive) == s3;
    assert Possible(s1, run[1..], inclusive) && After(s1, run[1..], inclusive) == s3;
  }

  lemma TakesOver(delay: Time, inclusive: bool)
    requires delay >= 0
    ensures Possible(LateState(delay), TAKE_OVER, inclusive) <==> Expired(LEASE, delay + PUBLISH_TIMEOUT, inclusive)
    ensures Possible(LateState(delay), TAKE_OVER, inclusive)
            ==> Clash(After(LateState(delay), TAKE_OVER, inclusive), 0, 1)
  {
    var s := LateState(delay);
    if Enabled(s, TAKE_OVER[0], inclusive) {
      var s' := Do(s, TAKE_OVER[0], inclusive);
      assert TAKE_OVER[1..] == [StartPublish(1)];
      assert Possible(s', [StartPublish(1)], inclusive);
      assert After(s', [StartPublish(1)], inclusive) == Do(s', StartPublish(1), inclusive);
    }
  }

  /** The time limit is exact: a worker that starts `delay` seconds after its claim
      can be joined by a second publisher of the same event precisely when its
      publish may outlast the lease. At 50 seconds the two stores differ. */
  lemma LateStartClashes(delay: Time, inclusive: bool)
    requires delay >= 0
    ensures Possible(Start(0), LateRun(delay), inclusive) <==> if inclusive then 50 <= delay else 50 < delay
    ensures Possible(Start(0), LateRun(delay), inclusive) ==> Clash(After(Start(0), LateRun(delay), inclusive), 0, 1)
  {
    ClaimFirst(inclusive);
    PublishesLate(delay, inclusive);
    TakesOver(delay, inclusive);
    RunInParts(Start(0), CLAIM_FIRST, PublishLate(delay) + TAKE_OVER, inclusive);
    RunInParts(ClaimedState(), PublishLate(delay), TAKE_OVER, inclusive);
  }
}
