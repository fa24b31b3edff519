/** Handling one delivery, as the consumer does it, and the proof that it keeps to
    the protocol of `Notifier`. */
module NotifierConsumer {
  import opened Wrappers
  import opened Telegram
  import opened Notifier

  /** What the consumer meets. `entered`: a publish that failed still queued its
      message. `publishTook`, `pause`: how long a transfer and the wait after a
      failed one take. */
  datatype Env = Env(exchanges: seq<Exchange>, cancelAt: Option<Time>, transferOk: bool, entered: bool,
                     publishTook: nat, pause: nat)

  datatype Fate = Delivered | Buried | Deferred(note: Note) | Returned | Abandoned

  ghost predicate Leads(s: State, actions: seq<Action>, s': State) {
    Possible(s, actions) && After(s, actions) == s'
  }

  lemma {:induction false} LeadsOn(s: State, actions: seq<Action>, s': State, a: Action)
    requires Leads(s, actions, s') && Enabled(s', a)
    ensures Leads(s, actions + [a], Do(s', a))
    decreases |actions|
  {
    if actions == [] {
      assert (actions + [a])[1..] == [];
      assert After(Do(s', a), []) == Do(s', a);
    } else {
      assert (actions + [a])[1..] == actions[1..] + [a];
      LeadsOn(Do(s, actions[0]), actions[1..], s', a);
    }
  }

  /** Only time and this delivery's last reply differ; `sent` and `rejected` follow
      the reply. */
  ghost predicate Answered(s: State, tag: Tag, at: Time, reply: Reply, s': State)
    requires tag in s.unacked
  {
    var d := s.unacked[tag];
    && s'.injected == s.injected && s'.ready == s.ready && s'.retry == s.retry && s'.dead == s.dead
    && s'.unacked == s.unacked[tag := d.(reply := Some((at, reply)), settled := reply.Accepted?)]
    && s'.sent == (if reply.Accepted? then s.sent + {d.note.id} else s.sent)
    && s'.rejected == (if reply.Rejected? then s.rejected + {d.note.id} else s.rejected)
  }

  /** Before the first request. */
  ghost predicate Fresh(s: State, tag: Tag) {
    Open(s, tag) && s.unacked[tag].reply.None?
  }

  /** One request, from its start `at` to its reply. */
  lemma RequestLeads(s: State, tag: Tag, at: Time, x: Exchange) returns (s': State, actions: seq<Action>)
    requires Open(s, tag) && s.now <= at && s.unacked[tag].note.kind.Chat?
    requires Waited(s.unacked[tag].reply, at) && (s.unacked[tag].reply.None? ==> !Held(s.unacked[tag].note, at))
    ensures Leads(s, actions, s') && Answered(s, tag, at + x.took, x.reply, s') && s'.now == at + x.took
    ensures Post(tag) in actions
  {
    var s1 := Do(s, Tick(at - s.now));
    assert Leads(s, [], s);
    LeadsOn(s, [], s, Tick(at - s.now));
    var s2 := Do(s1, Post(tag));
    LeadsOn(s, [] + [Tick(at - s.now)], s1, Post(tag));
    var s3 := Do(s2, Tick(x.took));
    LeadsOn(s, [] + [Tick(at - s.now)] + [Post(tag)], s2, Tick(x.took));
    s' := Do(s3, Answer(tag, x.reply));
    actions := [] + [Tick(at - s.now)] + [Post(tag)] + [Tick(x.took)] + [Answer(tag, x.reply)];
    LeadsOn(s, [] + [Tick(at - s.now)] + [Post(tag)] + [Tick(x.took)], s3, Answer(tag, x.reply));
    assert s'.unacked == s.unacked[tag := s'.unacked[tag]];
  }

  lemma {:induction false} LeadsThen(s: State, first: seq<Action>, mid: State, rest: seq<Action>, s': State)
    requires Leads(s, first, mid) && Leads(mid, rest, s')
    ensures Leads(s, first + rest, s')
    decreases |first|
  {
    if first == [] {
      assert first + rest == rest;
    } else {
      assert (first + rest)[1..] == first[1..] + rest;
      LeadsThen(Do(s, first[0]), first[1..], mid, rest, s');
    }
  }

  /** The requests of `Send` are requests the protocol allows. */
  lemma {:induction false} RequestsLead(s: State, tag: Tag, starts: seq<Time>, exchanges: seq<Exchange>, n: nat)
    returns (s': State, actions: seq<Action>)
    requires Fresh(s, tag) && s.unacked[tag].note.kind.Chat? && !Held(s.unacked[tag].note, s.now)
    requires |starts| <= |exchanges| && |starts| <= |DELAYS| && WellSpaced(starts, exchanges)
    requires 0 < n <= |starts| && starts[0] == s.now
    ensures Leads(s, actions, s') && s'.now == Telegram.Answered(starts, exchanges, n - 1)
    ensures Answered(s, tag, s'.now, exchanges[n - 1].reply, s') && Post(tag) in actions
    decreases n
  {
    if n == 1 {
      s', actions := RequestLeads(s, tag, starts[0], exchanges[0]);
    } else {
      var mid, first := RequestsLead(s, tag, starts, exchanges, n - 1);
      var k := n - 2;
      assert Retryable(exchanges[k].reply) && starts[k + 1] == mid.now + Max(DELAYS[k + 1], exchanges[k].reply.after);
      var rest;
      s', rest := RequestLeads(mid, tag, starts[n - 1], exchanges[n - 1]);
      LeadsThen(s, first, mid, rest, s');
      actions := first + rest;
    }
  }

  // ─── Transfers ──────────────────────────────────────────────────────────────

  datatype Route = RetryAsIs | RetryLater | Dead

  function TransferOf(route: Route, tag: Tag, confirmed: bool): Action {
    match route
    case RetryAsIs => Hold(tag, confirmed)
    case RetryLater => ToRetry(tag, confirmed)
    case Dead => ToDead(tag, confirmed)
  }

  /** The note a transfer to the retry queue writes. */
  function Copy(d: Delivery, route: Route, now: Time): Note {
    if route.RetryLater? && d.reply.Some? && d.reply.value.1.Transient? then
      Notifier.Deferred(d.note, d.reply.value.0, d.reply.value.1.after, now)
    else d.note
  }

  /** `s'` is `s` once the publish has ended: a copy is where it should be if the
      message entered the queue, and the delivery is settled if that is certain. */
  ghost predicate Published(s: State, tag: Tag, route: Route, env: Env, s': State)
    requires tag in s.unacked
  {
    var d := s.unacked[tag];
    var entered := env.transferOk || env.entered;
    && s'.injected == s.injected && s'.sent == s.sent && s'.rejected == s.rejected && s'.ready == s.ready
    && s'.unacked == s.unacked[tag := d.(settled := env.transferOk)]
    && s'.dead == (if entered && route.Dead? then s.dead + {d.note.id} else s.dead)
    && s'.retry == (if entered && !route.Dead? then s.retry + multiset{(Copy(d, route, s.now), s.now + RETRY_TTL)}
                    else s.retry)
  }

  lemma TransferPublishes(s: State, tag: Tag, route: Route, env: Env)
    requires Enabled(s, TransferOf(route, tag, env.transferOk)) && (env.transferOk || env.entered)
    ensures Published(s, tag, route, env, Do(s, TransferOf(route, tag, env.transferOk)))
    ensures Do(s, TransferOf(route, tag, env.transferOk)).now == s.now
  {
    match route
    case Dead => DeadPublishes(s, tag, env);
    case RetryAsIs => HoldPublishes(s, tag, env);
    case RetryLater => DeferralPublishes(s, tag, env);
  }

  lemma DeadPublishes(s: State, tag: Tag, env: Env)
    requires Enabled(s, ToDead(tag, env.transferOk)) && (env.transferOk || env.entered)
    ensures var s' := Do(s, ToDead(tag, env.transferOk)); Published(s, tag, Dead, env, s') && s'.now == s.now
  {
    assert s.unacked[tag := s.unacked[tag]] == s.unacked;
  }

  lemma HoldPublishes(s: State, tag: Tag, env: Env)
    requires Enabled(s, Hold(tag, env.transferOk)) && (env.transferOk || env.entered)
    ensures var s' := Do(s, Hold(tag, env.transferOk)); Published(s, tag, RetryAsIs, env, s') && s'.now == s.now
  {
    assert s.unacked[tag := s.unacked[tag]] == s.unacked;
  }

  lemma DeferralPublishes(s: State, tag: Tag, env: Env)
    requires Enabled(s, ToRetry(tag, env.transferOk)) && (env.transferOk || env.entered)
    ensures var s' := Do(s, ToRetry(tag, env.transferOk)); Published(s, tag, RetryLater, env, s') && s'.now == s.now
  {
    assert s.unacked[tag := s.unacked[tag]] == s.unacked;
  }

  method Publish(s: State, tag: Tag, route: Route, env: Env) returns (s': State, ghost trace: seq<Action>)
    requires Enabled(s, TransferOf(route, tag, true)) && Enabled(s, TransferOf(route, tag, false))
    ensures Leads(s, trace, s') && Published(s, tag, route, env, s') && s'.now == s.now + env.publishTook
  {
    s', trace := s, [];
    assert Leads(s, trace, s');
    if env.transferOk || env.entered {
      var action := TransferOf(route, tag, env.transferOk);
      TransferPublishes(s, tag, route, env);
      LeadsOn(s, trace, s', action);
      s', trace := Do(s', action), trace + [action];
    }
    assert s.unacked[tag := s.unacked[tag]] == s.unacked;
    LeadsOn(s, trace, s', Tick(env.publishTook));
    s', trace := Do(s', Tick(env.publishTook)), trace + [Tick(env.publishTook)];
  }

  /** Publishes the delivery elsewhere, and acknowledges it only if that went well. */
  method Transfer(s: State, tag: Tag, route: Route, env: Env) returns (s': State, fate: Fate, ghost trace: seq<Action>)
    requires Enabled(s, TransferOf(route, tag, true)) && Enabled(s, TransferOf(route, tag, false))
    ensures Leads(s, trace, s') && s'.sent == s.sent && s'.rejected == s.rejected && s'.injected == s.injected
    ensures !fate.Delivered? && (fate.Abandoned? ==> CancelledBy(env.cancelAt, s'.now))
    ensures !fate.Abandoned? ==> s'.unacked == Without(s.unacked, tag)
    ensures fate.Returned? ==> !env.transferOk && s'.ready == s.ready + multiset{s.unacked[tag].note}
    ensures fate.Buried? ==> route.Dead? && s'.dead == s.dead + {s.unacked[tag].note.id}
                             && s'.ready == s.ready && s'.retry == s.retry
    ensures fate.Deferred? ==> !route.Dead? && fate.note == Copy(s.unacked[tag], route, s.now)
                               && s'.retry == s.retry + multiset{(fate.note, s.now + RETRY_TTL)}
                               && s'.ready == s.ready && s'.dead == s.dead && s'.now == s.now + env.publishTook
  {
    s', trace := s, [];
    assert Leads(s, trace, s');
    if CancelledBy(env.cancelAt, s.now) {
      return s, Abandoned, trace;
    }
    s', trace := Publish(s, tag, route, env);
    ghost var rest := Without(s.unacked, tag);
    assert Without(s'.unacked, tag) == rest;
    if !env.transferOk {
      LeadsOn(s, trace, s', Tick(env.pause));
      s', trace := Do(s', Tick(env.pause)), trace + [Tick(env.pause)];
      if CancelledBy(env.cancelAt, s'.now) {
        return s', Abandoned, trace;
      }
      LeadsOn(s, trace, s', Requeue(tag));
      return Do(s', Requeue(tag)), Returned, trace + [Requeue(tag)];
    }
    if CancelledBy(env.cancelAt, s'.now) {
      return s', Abandoned, trace;
    }
    LeadsOn(s, trace, s', Ack(tag));
    s', trace := Do(s', Ack(tag)), trace + [Ack(tag)];
    fate := if route.Dead? then Buried else Deferred(Copy(s.unacked[tag], route, s.now));
  }

  /** Sends a chat message; the requests so far are part of the protocol's run. */
  method SendTelegram(s: State, tag: Tag, env: Env) returns (s': State, outcome: Outcome, ghost trace: seq<Action>)
    requires Fresh(s, tag) && s.unacked[tag].note.kind.Chat? && !Held(s.unacked[tag].note, s.now)
    requires |env.exchanges| == |DELAYS|
    ensures Leads(s, trace, s')
    ensures outcome.Cancelled? ==> CancelledBy(env.cancelAt, s'.now)
    ensures !outcome.Cancelled? ==> exists reply :: Answered(s, tag, s'.now, reply, s') && Matches(outcome, reply)
    ensures !outcome.Cancelled? ==> Post(tag) in trace
  {
    var starts, end;
    outcome, starts, end := Send(s.now, env.cancelAt, env.exchanges);
    var latest := s;
    trace := [];
    assert Leads(s, [], s);
    if starts != [] {
      ghost var reached, actions := RequestsLead(s, tag, starts, env.exchanges, |starts|);
      latest := Reached(s, tag, Telegram.Answered(starts, env.exchanges, |starts| - 1),
                        env.exchanges[|starts| - 1].reply);
      assert reached == latest;
      trace := actions;
    }
    LeadsOn(s, trace, latest, Tick(end - latest.now));
    s', trace := Do(latest, Tick(end - latest.now)), trace + [Tick(end - latest.now)];
    assert !outcome.Cancelled? ==> s' == latest && Matches(outcome, env.exchanges[|starts| - 1].reply);
  }

  predicate Matches(outcome: Outcome, reply: Reply) {
    match outcome
    case Sent => reply.Accepted?
    case PermanentError => reply.Rejected?
    case RetryError(after) => reply == Transient(after)
    case Cancelled => false
  }

  /** The state in which the last reply came at `at`. */
  function Reached(s: State, tag: Tag, at: Time, reply: Reply): State
    requires tag in s.unacked
  {
    var d := s.unacked[tag];
    s.(now := at, unacked := s.unacked[tag := d.(reply := Some((at, reply)), settled := reply.Accepted?)],
       sent := if reply.Accepted? then s.sent + {d.note.id} else s.sent,
       rejected := if reply.Rejected? then s.rejected + {d.note.id} else s.rejected)
  }

  /** What becomes of a delivery: unless the consumer is shutting down, it leaves
      the consumer's hands, and whatever happened to it is where it should be. */
  ghost predicate Disposed(s: State, tag: Tag, env: Env, s': State, fate: Fate)
    requires tag in s.unacked
  {
    var note := s.unacked[tag].note;
    && (if fate.Abandoned? then CancelledBy(env.cancelAt, s'.now) else s'.unacked == Without(s.unacked, tag))
    && (!fate.Delivered? && !fate.Abandoned? ==> s'.sent == s.sent)
    && match fate
       case Delivered => note.kind.Chat? && s'.sent == s.sent + {note.id} && Kept(s, s')
       case Buried => Hopeless(s', note.id) && s'.dead == s.dead + {note.id} && s'.ready == s.ready
         && s'.retry == s.retry
       case Deferred(copy) =>
         && copy.id == note.id && copy.kind == note.kind && s'.ready == s.ready && s'.dead == s.dead
         && s'.retry == s.retry + multiset{(copy, s'.now - env.publishTook + 30)}
       case Returned => !env.transferOk && s'.ready == s.ready + multiset{note}
       case Abandoned => true
  }

  ghost predicate Kept(s: State, s': State) {
    s'.ready == s.ready && s'.retry == s.retry && s'.dead == s.dead
  }

  /** Apart from its own delivery, an answered request leaves the consumer's hands alone. */
  lemma AnsweredIsGone(s: State, tag: Tag, at: Time, reply: Reply, s': State)
    requires tag in s.unacked && Answered(s, tag, at, reply, s')
    ensures Without(s'.unacked, tag) == Without(s.unacked, tag)
  {
  }

  /** The copy of a note put off at `at` for `after` seconds: the retry queue covers half a
      minute, a longer delay is written into the note. */
  predicate PutOff(note: Note, after: int, at: Time, copy: Note) {
    && copy.id == note.id && copy.kind == note.kind
    && copy.notBefore == (if after > 30 then Some(at + after) else note.notBefore)
    && copy.owed == if note.owed > at + after then note.owed else at + after
  }

  /** Put off at `at` for as long as some answer said. */
  ghost predicate PutOffAt(note: Note, at: Time, copy: Note) {
    exists after :: PutOff(note, after, at, copy)
  }

  /** Its time has not come. */
  predicate Early(note: Note, now: Time) {
    note.notBefore.Some? && now < note.notBefore.value
  }

  /** A message whose time has come is asked for at once; one whose time has not waits as it
      is; and what waits again after an answer waits as long as it said. */
  method Handle(s: State, tag: Tag, env: Env) returns (s': State, fate: Fate, ghost trace: seq<Action>)
    requires Fresh(s, tag) && |env.exchanges| == |DELAYS| && Known(s, s.unacked[tag].note)
    ensures Leads(s, trace, s') && Disposed(s, tag, env, s', fate)
    ensures var note := s.unacked[tag].note;
            && (Early(note, s.now) && !note.kind.Malformed? ==>
                  s'.sent == s.sent && !fate.Buried? && (fate.Deferred? ==> fate.note == note))
            && (!Early(note, s.now) && note.kind.Chat? && !fate.Abandoned? ==>
                  Post(tag) in trace
                  && (fate.Deferred? ==> PutOffAt(note, s'.now - env.publishTook, fate.note)))
            && (note.kind.Malformed? || (!Early(note, s.now) && !note.kind.Chat?) ==>
                  !fate.Deferred? && !fate.Delivered?)
  {
    var note := s.unacked[tag].note;
    if note.kind.Malformed? {
      s', fate, trace := Transfer(s, tag, Dead, env);
      return;
    }
    if Held(note, s.now) {
      s', fate, trace := Transfer(s, tag, RetryAsIs, env);
      return;
    }
    if !note.kind.Chat? {
      s', fate, trace := Transfer(s, tag, Dead, env);
      return;
    }
    var sent, outcome;
    ghost var requests;
    sent, outcome, requests := SendTelegram(s, tag, env);
    if outcome.Cancelled? {
      return sent, Abandoned, requests;
    }
    ghost var reply :| Answered(s, tag, sent.now, reply, sent) && Matches(outcome, reply);
    if outcome.Sent? {
      if CancelledBy(env.cancelAt, sent.now) {
        return sent, Abandoned, requests;
      }
      LeadsOn(s, requests, sent, Ack(tag));
      AnsweredIsGone(s, tag, sent.now, reply, sent);
      return Do(sent, Ack(tag)), Delivered, requests + [Ack(tag)];
    }
    ghost var moves;
    s', fate, moves := Transfer(sent, tag, if outcome.PermanentError? then Dead else RetryLater, env);
    trace := requests + moves;
    LeadsThen(s, requests, sent, moves, s');
    AnsweredIsGone(s, tag, sent.now, reply, sent);
    assert outcome.RetryError? && fate.Deferred? ==> PutOff(note, outcome.after, sent.now, fate.note);
  }
}
