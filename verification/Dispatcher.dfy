/** The update dispatcher: one goroutine spreads updates over eight bounded queues by
    a hash of the chat, one worker drains each queue. */
module Dispatcher {
  import opened Wrappers

  type Chat = int

  /** `chat` is absent from updates the bot cannot place. */
  datatype Update = Update(chat: Option<Chat>, body: nat)

  const WORKERS: nat := 8
  const CAPACITY: nat := 32

  datatype Worker = Idle | Handling(update: Update) | Ended

  /** `held`: received from Telegram, not yet on a queue. `received` and `handled`
      are histories. */
  datatype State = State(queues: seq<seq<Update>>, workers: seq<Worker>, held: Option<Update>, stopped: bool,
                         received: seq<Update>, handled: seq<Update>)

  datatype Action =
    | Receive(update: Update)
    | Send
    | Take(w: nat)
    | Finish(w: nat)
    | End(w: nat)
    | Stop

  predicate Shape(s: State) {
    |s.queues| == WORKERS == |s.workers| && (s.held.Some? ==> s.held.value.chat.Some?)
  }

  function Queue(hash: Chat -> nat, chat: Chat): nat {
    hash(chat) % WORKERS
  }

  predicate Enabled(s: State, a: Action, hash: Chat -> nat)
    requires Shape(s)
  {
    match a
    case Receive(_) => !s.stopped && s.held.None?
    case Send => s.held.Some? && |s.queues[Queue(hash, s.held.value.chat.value)]| < CAPACITY
    case Take(w) => w < WORKERS && s.workers[w].Idle? && s.queues[w] != []
    case Finish(w) => w < WORKERS && s.workers[w].Handling?
    case End(w) => w < WORKERS && s.workers[w].Idle? && s.stopped
    case Stop => true
  }

  /** A worker that receives after the stop drops what it got and ends. */
  function Do(s: State, a: Action, hash: Chat -> nat): State
    requires Shape(s) && Enabled(s, a, hash)
  {
    match a
    case Receive(u) => if u.chat.None? then s else s.(held := Some(u), received := s.received + [u])
    case Send =>
      var q := Queue(hash, s.held.value.chat.value);
      s.(queues := s.queues[q := s.queues[q] + [s.held.value]], held := None)
    case Take(w) =>
      s.(queues := s.queues[w := s.queues[w][1..]],
         workers := s.workers[w := if s.stopped then Ended else Handling(s.queues[w][0])])
    case Finish(w) => s.(workers := s.workers[w := Idle], handled := s.handled + [s.workers[w].update])
    case End(w) => s.(workers := s.workers[w := Ended])
    case Stop => s.(stopped := true)
  }

  // ─── The updates of one chat ────────────────────────────────────────────────

  function Of(updates: seq<Update>, chat: Chat): seq<Update> {
    if updates == [] then []
    else (if updates[0].chat == Some(chat) then [updates[0]] else []) + Of(updates[1..], chat)
  }

  lemma {:induction false} OfConcat(a: seq<Update>, b: seq<Update>, chat: Chat)
    ensures Of(a + b, chat) == Of(a, chat) + Of(b, chat)
  {
    if a == [] {
      assert a + b == b;
    } else {
      var head := if a[0].chat == Some(chat) then [a[0]] else [];
      assert (a + b)[0] == a[0] && (a + b)[1..] == a[1..] + b;
      OfConcat(a[1..], b, chat);
      assert Of(a + b, chat) == head + (Of(a[1..], chat) + Of(b, chat));
      assert Of(a, chat) == head + Of(a[1..], chat);
    }
  }

  lemma OfOne(u: Update, chat: Chat)
    ensures Of([u], chat) == if u.chat == Some(chat) then [u] else []
  {
    assert [u][1..] == [];
  }

  function InProgress(s: State, w: nat): seq<Update>
    requires w < |s.workers|
  {
    if s.workers[w].Handling? then [s.workers[w].update] else []
  }

  function HeldNow(s: State): seq<Update> {
    if s.held.Some? then [s.held.value] else []
  }

  /** What of a chat was handled or is being handled. */
  function Begun(s: State, hash: Chat -> nat, chat: Chat): seq<Update>
    requires Shape(s)
  {
    Of(s.handled, chat) + Of(InProgress(s, Queue(hash, chat)), chat)
  }

  /** What of a chat is still to come. */
  function ToCome(s: State, hash: Chat -> nat, chat: Chat): seq<Update>
    requires Shape(s)
  {
    Of(s.queues[Queue(hash, chat)], chat) + Of(HeldNow(s), chat)
  }

  predicate AllAt(updates: seq<Update>, hash: Chat -> nat, w: nat) {
    forall i | 0 <= i < |updates| :: updates[i].chat.Some? && Queue(hash, updates[i].chat.value) == w
  }

  /** Every update is where its hash sends it. */
  ghost predicate Placed(s: State, hash: Chat -> nat)
    requires Shape(s)
  {
    forall w | 0 <= w < WORKERS ::
      |s.queues[w]| <= CAPACITY && AllAt(s.queues[w], hash, w) && AllAt(InProgress(s, w), hash, w)
  }

  predicate InOrder(s: State, hash: Chat -> nat, chat: Chat)
    requires Shape(s)
  {
    && Begun(s, hash, chat) <= Of(s.received, chat)
    && (!s.workers[Queue(hash, chat)].Ended? ==> Begun(s, hash, chat) + ToCome(s, hash, chat) == Of(s.received, chat))
    && (s.workers[Queue(hash, chat)].Ended? ==> s.stopped)
  }

  ghost predicate Inv(s: State, hash: Chat -> nat) {
    Shape(s) && Placed(s, hash) && forall chat :: InOrder(s, hash, chat)
  }

  lemma PlacedKeeps(s: State, a: Action, hash: Chat -> nat)
    requires Shape(s) && Placed(s, hash) && Enabled(s, a, hash)
    ensures Shape(Do(s, a, hash)) && Placed(Do(s, a, hash), hash)
  {
    var s' := Do(s, a, hash);
    forall w | 0 <= w < WORKERS
      ensures |s'.queues[w]| <= CAPACITY && AllAt(s'.queues[w], hash, w) && AllAt(InProgress(s', w), hash, w)
    {
      assert AllAt(s.queues[w], hash, w) && AllAt(InProgress(s, w), hash, w);
    }
  }

  lemma ReceiveKeeps(s: State, u: Update, hash: Chat -> nat, chat: Chat)
    requires Shape(s) && Enabled(s, Receive(u), hash) && InOrder(s, hash, chat)
    ensures InOrder(Do(s, Receive(u), hash), hash, chat)
  {
    if u.chat.Some? {
      var s' := Do(s, Receive(u), hash);
      OfConcat(s.received, [u], chat);
      OfOne(u, chat);
      assert HeldNow(s) == [] && HeldNow(s') == [u];
      assert Begun(s', hash, chat) + ToCome(s', hash, chat)
             == Begun(s, hash, chat) + ToCome(s, hash, chat) + Of([u], chat);
    }
  }

  lemma SendKeeps(s: State, hash: Chat -> nat, chat: Chat)
    requires Shape(s) && Enabled(s, Send, hash) && InOrder(s, hash, chat)
    ensures InOrder(Do(s, Send, hash), hash, chat)
  {
    var s' := Do(s, Send, hash);
    var u := s.held.value;
    OfOne(u, chat);
    assert Begun(s', hash, chat) == Begun(s, hash, chat);
    var q := Queue(hash, u.chat.value);
    OfConcat(s.queues[q], [u], chat);
    assert ToCome(s', hash, chat) == ToCome(s, hash, chat);
  }

  /** Moving `x` from the front of what is to come to the end of what was begun. */
  lemma MoveOn(begun: seq<Update>, x: seq<Update>, coming: seq<Update>)
    ensures begun + (x + coming) == (begun + x) + coming && begun + x <= begun + (x + coming)
  {
  }

  /** The head of its queue is what a take moves. */
  lemma TakeParts(s: State, hash: Chat -> nat, chat: Chat, w: nat, first: seq<Update>)
    requires Shape(s) && w == Queue(hash, chat) && Enabled(s, Take(w), hash) && first == Of([s.queues[w][0]], chat)
    ensures ToCome(s, hash, chat) == first + ToCome(Do(s, Take(w), hash), hash, chat)
    ensures Begun(Do(s, Take(w), hash), hash, chat) == Begun(s, hash, chat) + if s.stopped then [] else first
  {
    TakeFromQueue(s, hash, chat, w);
    TakeInProgress(s, hash, chat, w);
  }

  lemma TakeFromQueue(s: State, hash: Chat -> nat, chat: Chat, w: nat)
    requires Shape(s) && w == Queue(hash, chat) && Enabled(s, Take(w), hash)
    ensures ToCome(s, hash, chat) == Of([s.queues[w][0]], chat) + ToCome(Do(s, Take(w), hash), hash, chat)
  {
    OfHead(s.queues[w], chat);
    Regrouped(Of([s.queues[w][0]], chat), Of(s.queues[w][1..], chat), Of(HeldNow(s), chat));
  }

  lemma OfHead(updates: seq<Update>, chat: Chat)
    requires updates != []
    ensures Of(updates, chat) == Of([updates[0]], chat) + Of(updates[1..], chat)
  {
    assert [updates[0]] + updates[1..] == updates;
    OfConcat([updates[0]], updates[1..], chat);
  }

  lemma Regrouped(a: seq<Update>, b: seq<Update>, c: seq<Update>)
    ensures (a + b) + c == a + (b + c)
  {
  }

  lemma TakeInProgress(s: State, hash: Chat -> nat, chat: Chat, w: nat)
    requires Shape(s) && w == Queue(hash, chat) && Enabled(s, Take(w), hash)
    ensures Begun(Do(s, Take(w), hash), hash, chat)
            == Begun(s, hash, chat) + if s.stopped then [] else Of([s.queues[w][0]], chat)
  {
    var s' := Do(s, Take(w), hash);
    assert InProgress(s, w) == [] && InProgress(s', w) == if s.stopped then [] else [s.queues[w][0]];
  }

  lemma TakeOwn(s: State, hash: Chat -> nat, chat: Chat)
    requires Shape(s) && Enabled(s, Take(Queue(hash, chat)), hash) && InOrder(s, hash, chat)
    ensures InOrder(Do(s, Take(Queue(hash, chat)), hash), hash, chat)
  {
    var w := Queue(hash, chat);
    var s' := Do(s, Take(w), hash);
    var first := Of([s.queues[w][0]], chat);
    TakeParts(s, hash, chat, w, first);
    MoveOn(Begun(s, hash, chat), first, ToCome(s', hash, chat));
  }

  lemma TakeKeeps(s: State, w: nat, hash: Chat -> nat, chat: Chat)
    requires Shape(s) && Enabled(s, Take(w), hash) && InOrder(s, hash, chat)
    ensures InOrder(Do(s, Take(w), hash), hash, chat)
  {
    if w == Queue(hash, chat) {
      TakeOwn(s, hash, chat);
    }
  }

  lemma FinishedStaysBegun(s: State, w: nat, hash: Chat -> nat, chat: Chat)
    requires Shape(s) && Placed(s, hash) && Enabled(s, Finish(w), hash)
    ensures Begun(Do(s, Finish(w), hash), hash, chat) == Begun(s, hash, chat)
  {
    var u := s.workers[w].update;
    assert InProgress(s, w)[0] == u && AllAt(InProgress(s, w), hash, w);
    if w == Queue(hash, chat) {
      OwnFinished(s, w, hash);
      HandledGrows(s.handled, u, chat);
    } else {
      OtherFinished(s, w, Queue(hash, chat), hash);
      HandledElsewhere(s.handled, u, chat);
    }
  }

  lemma HandledGrows(handled: seq<Update>, u: Update, chat: Chat)
    ensures Of(handled + [u], chat) + Of([], chat) == Of(handled, chat) + Of([u], chat)
  {
    OfConcat(handled, [u], chat);
  }

  lemma HandledElsewhere(handled: seq<Update>, u: Update, chat: Chat)
    requires u.chat != Some(chat)
    ensures Of(handled + [u], chat) == Of(handled, chat)
  {
    OfConcat(handled, [u], chat);
    OfOne(u, chat);
  }

  lemma OwnFinished(s: State, w: nat, hash: Chat -> nat)
    requires Shape(s) && Enabled(s, Finish(w), hash)
    ensures Shape(Do(s, Finish(w), hash)) && Do(s, Finish(w), hash).handled == s.handled + [s.workers[w].update]
    ensures InProgress(s, w) == [s.workers[w].update] && InProgress(Do(s, Finish(w), hash), w) == []
  {
  }

  lemma OtherFinished(s: State, w: nat, v: nat, hash: Chat -> nat)
    requires Shape(s) && Enabled(s, Finish(w), hash) && v < WORKERS && v != w
    ensures Shape(Do(s, Finish(w), hash)) && Do(s, Finish(w), hash).handled == s.handled + [s.workers[w].update]
    ensures InProgress(Do(s, Finish(w), hash), v) == InProgress(s, v)
  {
  }

  lemma FinishKeeps(s: State, w: nat, hash: Chat -> nat, chat: Chat)
    requires Shape(s) && Placed(s, hash) && Enabled(s, Finish(w), hash) && InOrder(s, hash, chat)
    ensures InOrder(Do(s, Finish(w), hash), hash, chat)
  {
    FinishedStaysBegun(s, w, hash, chat);
    assert ToCome(Do(s, Finish(w), hash), hash, chat) == ToCome(s, hash, chat);
  }

  lemma OrderKeeps(s: State, a: Action, hash: Chat -> nat, chat: Chat)
    requires Shape(s) && Placed(s, hash) && Enabled(s, a, hash) && InOrder(s, hash, chat)
    ensures Shape(Do(s, a, hash)) && InOrder(Do(s, a, hash), hash, chat)
  {
    match a
    case Receive(u) => ReceiveKeeps(s, u, hash, chat);
    case Send => SendKeeps(s, hash, chat);
    case Take(w) => TakeKeeps(s, w, hash, chat);
    case Finish(w) => FinishKeeps(s, w, hash, chat);
    case End(w) =>
    case Stop =>
  }

  // ─── What every run keeps ───────────────────────────────────────────────────

  ghost predicate Possible(s: State, actions: seq<Action>, hash: Chat -> nat)
    decreases |actions|
  {
    actions != [] ==>
      Shape(s) && Enabled(s, actions[0], hash) && Possible(Do(s, actions[0], hash), actions[1..], hash)
  }

  ghost function After(s: State, actions: seq<Action>, hash: Chat -> nat): State
    requires Possible(s, actions, hash)
    decreases |actions|
  {
    if actions == [] then s else After(Do(s, actions[0], hash), actions[1..], hash)
  }

  const START: State := State([[], [], [], [], [], [], [], []], [Idle, Idle, Idle, Idle, Idle, Idle, Idle, Idle],
                              None, false, [], [])

  lemma {:induction false} RunKeeps(s: State, actions: seq<Action>, hash: Chat -> nat)
    requires Inv(s, hash) && Possible(s, actions, hash)
    ensures Inv(After(s, actions, hash), hash)
    decreases |actions|
  {
    if actions != [] {
      PlacedKeeps(s, actions[0], hash);
      forall chat ensures InOrder(Do(s, actions[0], hash), hash, chat) {
        OrderKeeps(s, actions[0], hash, chat);
      }
      RunKeeps(Do(s, actions[0], hash), actions[1..], hash);
    }
  }

  ghost predicate Reachable(s: State, hash: Chat -> nat) {
    exists actions :: Possible(START, actions, hash) && After(START, actions, hash) == s
  }

  lemma StartInv(hash: Chat -> nat)
    ensures Inv(START, hash)
  {
    assert forall q | 0 <= q < WORKERS :: START.queues[q] == [] && InProgress(START, q) == [];
  }

  lemma ReachableInv(s: State, hash: Chat -> nat)
    requires Reachable(s, hash)
    ensures Inv(s, hash)
  {
    StartInv(hash);
    var actions :| Possible(START, actions, hash) && After(START, actions, hash) == s;
    RunKeeps(START, actions, hash);
  }

  /** Per-chat order, whatever the hash and however the workers interleave: before
      the stop, what was handled, is being handled, is queued and is held make up
      exactly what was received; after it, what was begun is still a prefix. */
  lemma ChatOrder(s: State, hash: Chat -> nat, chat: Chat)
    requires Reachable(s, hash)
    ensures Shape(s) && Begun(s, hash, chat) <= Of(s.received, chat)
    ensures !s.stopped ==> Begun(s, hash, chat) + ToCome(s, hash, chat) == Of(s.received, chat)
  {
    ReachableInv(s, hash);
    assert InOrder(s, hash, chat);
  }

  /** An update only ever waits in the queue its hash names, and queues stay bounded. */
  lemma QueuesBounded(s: State, hash: Chat -> nat, w: nat)
    requires Reachable(s, hash) && w < WORKERS
    ensures Shape(s) && |s.queues[w]| <= 32
    ensures forall u | u in s.queues[w] :: u.chat.Some? && hash(u.chat.value) % 8 == w
  {
    ReachableInv(s, hash);
  }

  /** Two workers never handle updates of one chat at the same time. */
  lemma OneAtATime(s: State, hash: Chat -> nat, v: nat, w: nat)
    requires Reachable(s, hash) && v < |s.workers| && w < |s.workers|
    requires s.workers[v].Handling? && s.workers[w].Handling? && s.workers[v].update.chat == s.workers[w].update.chat
    ensures v == w
  {
    ReachableInv(s, hash);
    assert AllAt(InProgress(s, v), hash, v) && AllAt(InProgress(s, w), hash, w);
    assert InProgress(s, v)[0] == s.workers[v].update && InProgress(s, w)[0] == s.workers[w].update;
  }
}
