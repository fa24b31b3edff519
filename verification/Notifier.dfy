/** The notification consumer: every delivery ends in a sent message, the retry
    queue, the dead-letter queue, or back in the task queue.

    Deliveries may be lost and redelivered at any time, and a publish whose confirm
    is lost may still have queued its message. Times are in seconds. */
module Notifier {
  import opened Wrappers
  import opened Telegram

  type Id = nat
  type Tag = nat

  const RETRY_TTL: Time := 30

  datatype Kind = Malformed | UnknownChannel | BadTarget | Chat

  /** `owed`: the earliest time the next request may start, by the last delay
      Telegram asked for in this copy's history. The code keeps no such field. */
  datatype Note = Note(id: Id, kind: Kind, notBefore: Option<Time>, owed: Time)

  /** `settled`: published elsewhere or sent, so it may be acknowledged.
      `reply`: the last reply and when it came. */
  datatype Delivery = Delivery(note: Note, settled: bool, posting: bool, reply: Option<(Time, Reply)>)

  datatype State = State(now: Time, injected: map<Id, Kind>, ready: multiset<Note>, unacked: map<Tag, Delivery>,
                         retry: multiset<(Note, Time)>, dead: set<Id>, sent: set<Id>, rejected: set<Id>)

  datatype Action =
    | Inject(id: Id, kind: Kind)
    | Tick(d: Time)
    | Deliver(note: Note, tag: Tag)
    | Expire(note: Note, at: Time)
    | Post(tag: Tag)
    | Answer(tag: Tag, reply: Reply)
    | Hold(tag: Tag, confirmed: bool)
    | ToRetry(tag: Tag, confirmed: bool)
    | ToDead(tag: Tag, confirmed: bool)
    | Ack(tag: Tag)
    | Requeue(tag: Tag)

  predicate Held(note: Note, now: Time) {
    note.notBefore.Some? && now < note.notBefore.value
  }

  /** A reply that allows another request by `now`. */
  predicate Waited(reply: Option<(Time, Reply)>, now: Time) {
    reply.None? || (Retryable(reply.value.1) && reply.value.0 + reply.value.1.after <= now)
  }

  predicate Open(s: State, tag: Tag) {
    tag in s.unacked && !s.unacked[tag].settled && !s.unacked[tag].posting
  }

  predicate Enabled(s: State, a: Action) {
    match a
    case Inject(id, _) => id !in s.injected
    case Tick(d) => d >= 0
    case Deliver(note, tag) => note in s.ready && tag !in s.unacked
    case Expire(note, at) => (note, at) in s.retry && at <= s.now
    case Post(tag) =>
      Open(s, tag) && var d := s.unacked[tag];
      d.note.kind.Chat? && Waited(d.reply, s.now) && (d.reply.None? ==> !Held(d.note, s.now))
    case Answer(tag, _) => tag in s.unacked && s.unacked[tag].posting
    case Hold(tag, _) =>
      Open(s, tag) && var d := s.unacked[tag]; !d.note.kind.Malformed? && d.reply.None? && Held(d.note, s.now)
    case ToRetry(tag, _) =>
      Open(s, tag) && s.unacked[tag].reply.Some? && s.unacked[tag].reply.value.1.Transient?
    case ToDead(tag, _) =>
      Open(s, tag) && var d := s.unacked[tag];
      if d.note.kind.Chat? then d.reply.Some? && d.reply.value.1.Rejected?
      else d.note.kind.Malformed? || !Held(d.note, s.now)
    case Ack(tag) => tag in s.unacked && s.unacked[tag].settled
    case Requeue(tag) => tag in s.unacked
  }

  function Settled(s: State, tag: Tag, confirmed: bool): State
    requires tag in s.unacked
  {
    if confirmed then s.(unacked := s.unacked[tag := s.unacked[tag].(settled := true)]) else s
  }

  function Without(m: map<Tag, Delivery>, tag: Tag): map<Tag, Delivery> {
    map t | t in m && t != tag :: m[t]
  }

  /** What `handle` writes for the next try: delays the retry queue cannot cover go
      into `NotBefore`. */
  function Deferred(note: Note, at: Time, after: int, now: Time): Note {
    note.(owed := Max(note.owed, at + after),
          notBefore := if after > LONGEST_WAIT then Some(now + after) else note.notBefore)
  }

  function Do(s: State, a: Action): State
    requires Enabled(s, a)
  {
    match a
    case Inject(id, kind) =>
      s.(injected := s.injected[id := kind], ready := s.ready + multiset{Note(id, kind, None, s.now)})
    case Tick(d) => s.(now := s.now + d)
    case Deliver(note, tag) =>
      s.(ready := s.ready - multiset{note}, unacked := s.unacked[tag := Delivery(note, false, false, None)])
    case Expire(note, at) => s.(retry := s.retry - multiset{(note, at)}, ready := s.ready + multiset{note})
    case Post(tag) => s.(unacked := s.unacked[tag := s.unacked[tag].(posting := true)])
    case Answer(tag, reply) =>
      var d := s.unacked[tag];
      var id := d.note.id;
      s.(unacked := s.unacked[tag := d.(posting := false, reply := Some((s.now, reply)), settled := reply.Accepted?)],
         sent := if reply.Accepted? then s.sent + {id} else s.sent,
         rejected := if reply.Rejected? then s.rejected + {id} else s.rejected)
    case Hold(tag, confirmed) =>
      Settled(s.(retry := s.retry + multiset{(s.unacked[tag].note, s.now + RETRY_TTL)}), tag, confirmed)
    case ToRetry(tag, confirmed) =>
      var d := s.unacked[tag];
      var note := Deferred(d.note, d.reply.value.0, d.reply.value.1.after, s.now);
      Settled(s.(retry := s.retry + multiset{(note, s.now + RETRY_TTL)}), tag, confirmed)
    case ToDead(tag, confirmed) => Settled(s.(dead := s.dead + {s.unacked[tag].note.id}), tag, confirmed)
    case Ack(tag) => s.(unacked := Without(s.unacked, tag))
    case Requeue(tag) => s.(unacked := Without(s.unacked, tag), ready := s.ready + multiset{s.unacked[tag].note})
  }

  // ─── Conservation ───────────────────────────────────────────────────────────

  ghost predicate InReady(s: State, id: Id) {
    exists n :: n in s.ready && n.id == id
  }

  ghost predicate InRetry(s: State, id: Id) {
    exists n, at :: (n, at) in s.retry && n.id == id
  }

  ghost predicate InHand(s: State, id: Id) {
    exists tag :: tag in s.unacked && s.unacked[tag].note.id == id && !s.unacked[tag].settled
  }

  ghost predicate Accounted(s: State, id: Id) {
    id in s.sent || id in s.dead || InReady(s, id) || InRetry(s, id) || InHand(s, id)
  }

  /** Only what Telegram refused for good, or could never be sent, is dead. */
  predicate Hopeless(s: State, id: Id) {
    id in s.rejected || (id in s.injected && !s.injected[id].Chat?)
  }

  predicate Known(s: State, note: Note) {
    note.id in s.injected && s.injected[note.id] == note.kind
  }

  predicate Payable(note: Note, now: Time) {
    note.owed <= now || (note.notBefore.Some? && note.owed <= note.notBefore.value)
  }

  ghost predicate ReadyOk(s: State) {
    forall n | n in s.ready :: Known(s, n) && Payable(n, s.now)
  }

  ghost predicate RetryOk(s: State) {
    forall n, at | (n, at) in s.retry :: Known(s, n) && Payable(n, Max(s.now, at))
  }

  ghost predicate HandOk(s: State) {
    forall t | t in s.unacked :: DeliveryOk(s, s.unacked[t])
  }

  ghost predicate NotesOk(s: State) {
    ReadyOk(s) && RetryOk(s) && HandOk(s)
  }

  ghost predicate DeliveryOk(s: State, d: Delivery) {
    && Known(s, d.note) && Payable(d.note, s.now)
    && (d.reply.Some? ==> d.reply.value.0 <= s.now && d.note.owed <= s.now && d.note.kind.Chat?)
    && (d.posting ==> d.note.owed <= s.now && d.note.kind.Chat?)
    && (d.reply.Some? && d.reply.value.1.Accepted? ==> d.settled)
    && (d.reply.Some? && d.reply.value.1.Rejected? ==> d.note.id in s.rejected)
  }

  ghost predicate Inv(s: State) {
    && NotesOk(s)
    && (forall id | id in s.injected :: Accounted(s, id))
    && (forall id | id in s.dead :: Hopeless(s, id))
  }

  /** Time passes, and nothing known is forgotten. */
  ghost predicate Later(s: State, s': State) {
    && s.now <= s'.now && s.rejected <= s'.rejected
    && forall id | id in s.injected :: id in s'.injected && s'.injected[id] == s.injected[id]
  }

  lemma UntouchedStaysOk(s: State, s': State, d: Delivery)
    requires DeliveryOk(s, d) && Later(s, s')
    ensures DeliveryOk(s', d)
  {
  }

  predicate Touches(a: Action) {
    a.Deliver? || a.Post? || a.Answer? || a.Hold? || a.ToRetry? || a.ToDead?
  }

  lemma StepIsLater(s: State, a: Action)
    requires Enabled(s, a)
    ensures Later(s, Do(s, a))
    ensures forall t | t in Do(s, a).unacked ::
              (Touches(a) && t == a.tag) || (t in s.unacked && Do(s, a).unacked[t] == s.unacked[t])
  {
  }

  /** Where a ready copy came from. */
  lemma ReadyCameFrom(s: State, a: Action, n: Note)
    requires Enabled(s, a) && n in Do(s, a).ready && n !in s.ready
    ensures a.Inject? || a.Expire? || a.Requeue?
    ensures a.Inject? ==> n == Note(a.id, a.kind, None, s.now)
    ensures a.Expire? ==> n == a.note
    ensures a.Requeue? ==> n == s.unacked[a.tag].note
  {
  }

  lemma ReadyStaysOk(s: State, a: Action)
    requires NotesOk(s) && Enabled(s, a)
    ensures ReadyOk(Do(s, a))
  {
    var s' := Do(s, a);
    StepIsLater(s, a);
    forall n | n in s'.ready ensures Known(s', n) && Payable(n, s'.now) {
      if n in s.ready {
        assert Known(s, n) && Payable(n, s.now);
      } else {
        ReadyCameFrom(s, a, n);
        if a.Expire? {
          assert (n, a.at) in s.retry;
        } else if a.Requeue? {
          assert DeliveryOk(s, s.unacked[a.tag]);
        }
      }
    }
  }

  lemma RetryStaysOk(s: State, a: Action)
    requires NotesOk(s) && Enabled(s, a)
    ensures RetryOk(Do(s, a))
  {
    var s' := Do(s, a);
    forall n, at | (n, at) in s'.retry ensures Known(s', n) && Payable(n, Max(s'.now, at)) {
      if (n, at) in s.retry {
        assert Known(s, n) && Payable(n, Max(s.now, at));
      } else {
        assert a.Hold? || a.ToRetry?;
        assert DeliveryOk(s, s.unacked[a.tag]);
      }
    }
  }

  lemma TouchedStaysOk(s: State, a: Action)
    requires NotesOk(s) && Enabled(s, a) && Touches(a) && a.tag in Do(s, a).unacked
    ensures DeliveryOk(Do(s, a), Do(s, a).unacked[a.tag])
  {
    if !a.Deliver? {
      assert DeliveryOk(s, s.unacked[a.tag]);
    }
  }

  lemma HandStaysOk(s: State, a: Action)
    requires NotesOk(s) && Enabled(s, a)
    ensures HandOk(Do(s, a))
  {
    var s' := Do(s, a);
    StepIsLater(s, a);
    forall t | t in s'.unacked ensures DeliveryOk(s', s'.unacked[t]) {
      if t in s.unacked && s'.unacked[t] == s.unacked[t] {
        UntouchedStaysOk(s, s', s.unacked[t]);
      } else {
        TouchedStaysOk(s, a);
      }
    }
  }

  lemma DeadStayHopeless(s: State, a: Action, id: Id)
    requires HandOk(s) && Enabled(s, a) && id in Do(s, a).dead && (id in s.dead ==> Hopeless(s, id))
    ensures Hopeless(Do(s, a), id)
  {
    StepIsLater(s, a);
    if id !in s.dead {
      assert a.ToDead? && DeliveryOk(s, s.unacked[a.tag]);
    }
  }

  /** Delivering, expiring and requeuing carry a copy from one place to another. */
  lemma StaysInReady(s: State, a: Action, n: Note)
    requires Enabled(s, a) && n in s.ready
    ensures Accounted(Do(s, a), n.id)
  {
    var s' := Do(s, a);
    if n in s'.ready {
      assert InReady(s', n.id);
    } else {
      assert a.Deliver? && s'.unacked[a.tag].note == n;
      assert InHand(s', n.id);
    }
  }

  lemma StaysInRetry(s: State, a: Action, n: Note, at: Time)
    requires Enabled(s, a) && (n, at) in s.retry
    ensures Accounted(Do(s, a), n.id)
  {
    var s' := Do(s, a);
    if (n, at) in s'.retry {
      assert InRetry(s', n.id);
    } else {
      assert a.Expire? && n in s'.ready;
      assert InReady(s', n.id);
    }
  }

  lemma StaysInHand(s: State, a: Action, tag: Tag)
    requires Enabled(s, a) && tag in s.unacked && !s.unacked[tag].settled
    ensures Accounted(Do(s, a), s.unacked[tag].note.id)
  {
    var s', n := Do(s, a), s.unacked[tag].note;
    if tag in s'.unacked && !s'.unacked[tag].settled {
      HandKeepsNote(s, a, tag);
      assert InHand(s', n.id);
    } else if a.Requeue? {
      assert n in s'.ready;
      assert InReady(s', n.id);
    } else if a.Hold? || a.ToRetry? {
      TransferInRetry(s, a);
      LeaverIsMoved(s, a, tag);
    } else {
      LeaverIsMoved(s, a, tag);
    }
  }

  lemma HandKeepsNote(s: State, a: Action, tag: Tag)
    requires Enabled(s, a) && tag in s.unacked && tag in Do(s, a).unacked
    ensures Do(s, a).unacked[tag].note == s.unacked[tag].note
  {
    match a
    case Post(_) =>
    case Answer(_, _) =>
    case Hold(_, _) =>
    case ToRetry(_, _) =>
    case ToDead(_, _) =>
    case _ =>
  }

  /** A delivery is settled or leaves only by an action on it. */
  lemma LeaverIsMoved(s: State, a: Action, tag: Tag)
    requires Enabled(s, a) && tag in s.unacked && !s.unacked[tag].settled
    requires tag !in Do(s, a).unacked || Do(s, a).unacked[tag].settled
    ensures a.Requeue? || a.Hold? || a.ToRetry? || a.Answer? || a.ToDead?
    ensures a.tag == tag
    ensures a.Answer? ==> s.unacked[tag].note.id in Do(s, a).sent
    ensures a.ToDead? ==> s.unacked[tag].note.id in Do(s, a).dead
  {
  }

  lemma TransferInRetry(s: State, a: Action)
    requires Enabled(s, a) && (a.Hold? || a.ToRetry?)
    ensures InRetry(Do(s, a), s.unacked[a.tag].note.id)
  {
    var d := s.unacked[a.tag];
    var n := if a.Hold? then d.note else Deferred(d.note, d.reply.value.0, d.reply.value.1.after, s.now);
    assert (n, s.now + RETRY_TTL) in Do(s, a).retry && n.id == d.note.id;
  }

  lemma StaysAccounted(s: State, a: Action, id: Id)
    requires Enabled(s, a) && Accounted(s, id)
    ensures Accounted(Do(s, a), id)
  {
    if InReady(s, id) {
      var n :| n in s.ready && n.id == id;
      StaysInReady(s, a, n);
    } else if InRetry(s, id) {
      var n, at :| (n, at) in s.retry && n.id == id;
      StaysInRetry(s, a, n, at);
    } else if InHand(s, id) {
      var tag :| tag in s.unacked && s.unacked[tag].note.id == id && !s.unacked[tag].settled;
      StaysInHand(s, a, tag);
    } else {
      assert id in Do(s, a).sent || id in Do(s, a).dead;
    }
  }

  lemma NewIsAccounted(s: State, a: Action)
    requires Enabled(s, a) && a.Inject?
    ensures Accounted(Do(s, a), a.id)
  {
    assert Note(a.id, a.kind, None, s.now) in Do(s, a).ready;
    assert InReady(Do(s, a), a.id);
  }

  lemma StepKeeps(s: State, a: Action)
    requires Inv(s) && Enabled(s, a)
    ensures Inv(Do(s, a))
  {
    var s' := Do(s, a);
    ReadyStaysOk(s, a);
    RetryStaysOk(s, a);
    HandStaysOk(s, a);
    forall id | id in s'.dead ensures Hopeless(s', id) {
      DeadStayHopeless(s, a, id);
    }
    forall id | id in s'.injected ensures Accounted(s', id) {
      if id in s.injected {
        StaysAccounted(s, a, id);
      } else {
        NewIsAccounted(s, a);
      }
    }
  }

  // ─── What every run keeps ───────────────────────────────────────────────────

  ghost predicate Possible(s: State, actions: seq<Action>)
    decreases |actions|
  {
    actions != [] ==> Enabled(s, actions[0]) && Possible(Do(s, actions[0]), actions[1..])
  }

  ghost function After(s: State, actions: seq<Action>): State
    requires Possible(s, actions)
    decreases |actions|
  {
    if actions == [] then s else After(Do(s, actions[0]), actions[1..])
  }

  lemma {:induction false} RunKeeps(s: State, actions: seq<Action>)
    requires Inv(s) && Possible(s, actions)
    ensures Inv(After(s, actions))
    decreases |actions|
  {
    if actions != [] {
      StepKeeps(s, actions[0]);
      RunKeeps(Do(s, actions[0]), actions[1..]);
    }
  }

  function Start(now: Time): State {
    State(now, map[], multiset{}, map[], multiset{}, {}, {}, {})
  }

  ghost predicate Reachable(s: State) {
    exists now, actions :: Possible(Start(now), actions) && After(Start(now), actions) == s
  }

  lemma ReachableInv(s: State)
    requires Reachable(s)
    ensures Inv(s)
  {
    var now, actions :| Possible(Start(now), actions) && After(Start(now), actions) == s;
    RunKeeps(Start(now), actions);
  }

  /** Nothing is lost: every notification was sent, is dead-lettered, or has a copy
      in the task queue, the retry queue or an unacknowledged delivery. */
  lemma NotificationsConserved(s: State, id: Id)
    requires Reachable(s) && id in s.injected
    ensures Accounted(s, id)
    ensures id in s.dead ==> Hopeless(s, id)
  {
    ReachableInv(s);
  }

  /** Every request starts no earlier than Telegram last asked for, whether the
      wait was spent in place, in the retry queue or under `NotBefore`. */
  lemma LimitsRespected(s: State, tag: Tag)
    requires Reachable(s) && Enabled(s, Post(tag))
    ensures s.unacked[tag].note.owed <= s.now
    ensures var d := s.unacked[tag]; d.reply.Some? ==> d.reply.value.0 + d.reply.value.1.after <= s.now
  {
    ReachableInv(s);
    assert DeliveryOk(s, s.unacked[tag]);
  }

  /** What `owed` means: a copy moved to the retry queue after a reply that came at
      `at` and asked for `after` seconds owes at least that. */
  lemma DeferredOwes(s: State, tag: Tag, confirmed: bool)
    requires Enabled(s, ToRetry(tag, confirmed))
    ensures var (at, reply) := s.unacked[tag].reply.value;
            exists n, expiry :: (n, expiry) in Do(s, ToRetry(tag, confirmed)).retry
                                && n.id == s.unacked[tag].note.id && n.owed >= at + reply.after
  {
    var d := s.unacked[tag];
    var n := Deferred(d.note, d.reply.value.0, d.reply.value.1.after, s.now);
    assert (n, s.now + RETRY_TTL) in Do(s, ToRetry(tag, confirmed)).retry;
  }
}
