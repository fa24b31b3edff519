/** A delay that Telegram asked for, followed along the way of one copy: through the
    retry queue, the task queue, deliveries, holds, requeues and further retries. */
module NotifierDelays {
  import opened Wrappers
  import opened Telegram
  import opened Notifier

  datatype Place = InTasks(note: Note) | InRetry(note: Note, expiry: Time) | InHand(tag: Tag)

  predicate Present(s: State, x: Place) {
    match x
    case InTasks(n) => n in s.ready
    case InRetry(n, at) => (n, at) in s.retry
    case InHand(tag) => tag in s.unacked
  }

  function NoteAt(s: State, x: Place): Note
    requires Present(s, x)
  {
    if x.InHand? then s.unacked[x.tag].note else x.note
  }

  /** Where the action carries a copy. */
  predicate Carries(s: State, a: Action, x: Place, x': Place)
    requires Enabled(s, a)
  {
    match a
    case Deliver(n, tag) => x == InTasks(n) && x' == InHand(tag)
    case Expire(n, at) => x == InRetry(n, at) && x' == InTasks(n)
    case Requeue(tag) => x == InHand(tag) && x' == InTasks(s.unacked[tag].note)
    case Hold(tag, _) => x == InHand(tag) && x' == InRetry(s.unacked[tag].note, s.now + RETRY_TTL)
    case ToRetry(tag, _) =>
      var d := s.unacked[tag];
      x == InHand(tag)
      && x' == InRetry(Deferred(d.note, d.reply.value.0, d.reply.value.1.after, s.now), s.now + RETRY_TTL)
    case _ => false
  }

  /** A copy after a step: carried on, or still where it was. */
  ghost predicate Follows(s: State, a: Action, x: Place, x': Place)
    requires Enabled(s, a)
  {
    Present(s, x) && Present(Do(s, a), x') && (x' == x || Carries(s, a, x, x'))
  }

  /** A step never lowers what a copy owes, and never turns it into another message. */
  lemma OwedNeverShrinks(s: State, a: Action, x: Place, x': Place)
    requires Enabled(s, a) && Follows(s, a, x, x')
    ensures NoteAt(s, x).owed <= NoteAt(Do(s, a), x').owed && NoteAt(s, x).id == NoteAt(Do(s, a), x').id
  {
    if x' == x && x.InHand? {
      StepIsLater(s, a);
      HandKeepsNote(s, a, x.tag);
    }
  }

  lemma RetryCameFrom(s: State, a: Action, n: Note, at: Time)
    requires Enabled(s, a) && (n, at) in Do(s, a).retry && (n, at) !in s.retry
    ensures a.Hold? || a.ToRetry?
    ensures Present(s, InHand(a.tag)) && Carries(s, a, InHand(a.tag), InRetry(n, at))
  {
  }

  lemma HandCameFrom(s: State, a: Action, tag: Tag)
    requires Enabled(s, a) && tag in Do(s, a).unacked && tag !in s.unacked
    ensures a.Deliver? && a.tag == tag
  {
  }

  /** Every copy comes from a copy, or is a new message. */
  lemma EveryCopyFollows(s: State, a: Action, x': Place) returns (x: Place)
    requires Enabled(s, a) && Present(Do(s, a), x')
    ensures Follows(s, a, x, x') || (a.Inject? && x' == InTasks(Note(a.id, a.kind, None, s.now)))
  {
    x := x';
    if !Present(s, x') {
      match x' {
        case InTasks(n) => x := ReadyFollows(s, a, n);
        case InRetry(n, at) =>
          RetryCameFrom(s, a, n, at);
          x := InHand(a.tag);
        case InHand(tag) => x := HandFollows(s, a, tag);
      }
    }
  }

  lemma ReadyFollows(s: State, a: Action, n: Note) returns (x: Place)
    requires Enabled(s, a) && n in Do(s, a).ready && n !in s.ready
    ensures (Present(s, x) && Carries(s, a, x, InTasks(n))) || (a.Inject? && n == Note(a.id, a.kind, None, s.now))
  {
    ReadyCameFrom(s, a, n);
    x := if a.Expire? then InRetry(a.note, a.at) else if a.Requeue? then InHand(a.tag) else InTasks(n);
  }

  lemma HandFollows(s: State, a: Action, tag: Tag) returns (x: Place)
    requires Enabled(s, a) && tag in Do(s, a).unacked && tag !in s.unacked
    ensures Present(s, x) && Carries(s, a, x, InHand(tag))
  {
    HandCameFrom(s, a, tag);
    x := InTasks(a.note);
  }

  /** The places of one copy along a run. */
  ghost predicate Path(s: State, actions: seq<Action>, places: seq<Place>)
    decreases |actions|
  {
    && |places| == |actions| + 1 && Present(s, places[0])
    && (actions != [] ==>
          Enabled(s, actions[0]) && Follows(s, actions[0], places[0], places[1])
          && Path(Do(s, actions[0]), actions[1..], places[1..]))
  }

  lemma {:induction false} PathOwes(s: State, actions: seq<Action>, places: seq<Place>)
    requires Path(s, actions, places)
    ensures Possible(s, actions) && Present(After(s, actions), places[|actions|])
    ensures NoteAt(s, places[0]).owed <= NoteAt(After(s, actions), places[|actions|]).owed
    decreases |actions|
  {
    if actions != [] {
      OwedNeverShrinks(s, actions[0], places[0], places[1]);
      PathOwes(Do(s, actions[0]), actions[1..], places[1..]);
      assert places[1..][|actions| - 1] == places[|actions|];
    }
  }

  lemma InvLimits(s: State, tag: Tag)
    requires Inv(s) && Enabled(s, Post(tag))
    ensures s.unacked[tag].note.owed <= s.now
  {
    assert DeliveryOk(s, s.unacked[tag]);
  }

  /** What a retry transfer writes owes the delay of the reply. */
  lemma TransferOwes(s: State, tag: Tag, confirmed: bool, first: Place)
    requires Enabled(s, ToRetry(tag, confirmed)) && Carries(s, ToRetry(tag, confirmed), InHand(tag), first)
    ensures Present(Do(s, ToRetry(tag, confirmed)), first)
    ensures var (at, reply) := s.unacked[tag].reply.value;
            NoteAt(Do(s, ToRetry(tag, confirmed)), first).owed >= at + reply.after
  {
  }

  /** Telegram answered at `at` and asked for `after` seconds, and a copy went to the
      retry queue: whatever then happens to that copy and around it, the next request
      for it, and every later one, starts no earlier than `at + after`. */
  lemma DelayIsHonoured(s: State, tag: Tag, confirmed: bool, actions: seq<Action>, places: seq<Place>, last: Tag)
    requires Reachable(s) && Enabled(s, ToRetry(tag, confirmed))
    requires Path(Do(s, ToRetry(tag, confirmed)), actions, places)
    requires Carries(s, ToRetry(tag, confirmed), InHand(tag), places[0]) && places[|actions|] == InHand(last)
    ensures Possible(Do(s, ToRetry(tag, confirmed)), actions)
    ensures Enabled(After(Do(s, ToRetry(tag, confirmed)), actions), Post(last)) ==>
              var (at, reply) := s.unacked[tag].reply.value;
              at + reply.after <= After(Do(s, ToRetry(tag, confirmed)), actions).now
  {
    var s1 := Do(s, ToRetry(tag, confirmed));
    ReachableInv(s);
    StepKeeps(s, ToRetry(tag, confirmed));
    PathOwes(s1, actions, places);
    RunKeeps(s1, actions);
    TransferOwes(s, tag, confirmed, places[0]);
    if Enabled(After(s1, actions), Post(last)) {
      InvLimits(After(s1, actions), last);
    }
  }
}
