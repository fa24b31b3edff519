/** Publishing with confirms over one shared channel.

    Confirms and returns carry no reference to the publish they answer, so the
    connection lets one publish at a time use the channel and retires the channel
    whenever an answer may still be outstanding. Any number of `Publish` calls,
    `Close`, channel failures and broker answers interleave here, one atomic
    section at a time. */
module Broker {
  import opened Wrappers

  type Call = nat
  type Ch = nat
  type Attempt = nat

  /** An AMQP channel: publishes the broker has yet to confirm, and the buffered
      notification streams, which close with the channel. */
  datatype Chan = Chan(open: bool, pending: seq<Attempt>, bounced: seq<Attempt>, confirms: seq<(Attempt, bool)>)

  const FRESH_CHAN: Chan := Chan(true, [], [], [])

  /** What follows once the gate is released. */
  datatype Next = Success(attempt: Attempt) | TryFailed | CallFailed | SecondTry

  /** Where a call of `Publish` is. `try`: 1, or 2 after a redial. */
  datatype Pc =
    | Waiting(try: nat)
    | Gated(try: nat)
    | Chosen(try: nat, ch: Ch)
    | Armed(try: nat, ch: Ch, streams: Option<Ch>)
    | Awaiting(try: nat, ch: Ch, streams: Option<Ch>, attempt: Attempt, returned: bool, listening: bool)
    | Leaving(try: nat, next: Next, retire: Option<Ch>)
    | Failed(try: nat)
    | WantsRedial
    | Redialling
    | Cleared
    | Opened(ch: Ch)
    | Done(result: Option<Attempt>)

  /** `origin`: which call wrote an attempt, and on which channel. `acked` and
      `returned`: what the broker has decided. */
  datatype State = State(gate: Option<Call>, publishCh: Option<Ch>, streams: Option<Ch>, closed: bool,
                         chans: map<Ch, Chan>, calls: map<Call, Pc>,
                         origin: map<Attempt, (Call, Ch)>, acked: set<Attempt>, returned: set<Attempt>)

  datatype Action =
    | Begin(c: Call)
    | GiveUp(c: Call)
    | Acquire(c: Call)
    | ReadChannel(c: Call)
    | ReadStreams(c: Call)
    | RefuseDeadline(c: Call)
    | Write(c: Call, attempt: Attempt)
    | WriteFails(c: Call, attempt: Attempt)
    | TakeReturn(c: Call)
    | ReturnsClosed(c: Call)
    | TakeConfirm(c: Call, cancelled: bool)
    | ConfirmsClosed(c: Call, cancelled: bool)
    | Cancel(c: Call)
    | Retire(c: Call)
    | Release(c: Call)
    | Decide(c: Call, again: bool)
    | RedialCheck(c: Call)
    | RedialFails(c: Call)
    | RedialOpen(c: Call, ch: Ch)
    | RedialInstall(c: Call)
    | Close
    | ChannelDies(ch: Ch)
    | BrokerReturns(ch: Ch)
    | BrokerConfirms(ch: Ch, ack: bool)

  predicate At(s: State, c: Call) {
    c in s.calls
  }

  predicate Usable(s: State) {
    !s.closed && s.publishCh.Some? && s.publishCh.value in s.chans && s.chans[s.publishCh.value].open
  }

  predicate HoldsGate(pc: Pc) {
    pc.Gated? || pc.Chosen? || pc.Armed? || pc.Awaiting? || pc.Leaving? || pc.Redialling? || pc.Cleared? || pc.Opened?
  }

  /** The call reads a stream of its own channel. */
  predicate Listens(s: State, pc: Pc) {
    pc.Awaiting? && pc.streams == Some(pc.ch) && pc.ch in s.chans
  }

  predicate Enabled(s: State, a: Action) {
    match a
    case Begin(c) => c !in s.calls
    case GiveUp(c) => At(s, c) && (s.calls[c].Waiting? || s.calls[c].WantsRedial?)
    case Acquire(c) => At(s, c) && (s.calls[c].Waiting? || s.calls[c].WantsRedial?) && s.gate.None?
    case ReadChannel(c) => At(s, c) && s.calls[c].Gated?
    case ReadStreams(c) => At(s, c) && s.calls[c].Chosen?
    case RefuseDeadline(c) => At(s, c) && s.calls[c].Armed?
    case Write(c, a) => At(s, c) && s.calls[c].Armed? && a !in s.origin && s.calls[c].ch in s.chans
    case WriteFails(c, a) => At(s, c) && s.calls[c].Armed? && a !in s.origin && s.calls[c].ch in s.chans
    case TakeReturn(c) =>
      At(s, c) && Listens(s, s.calls[c]) && s.calls[c].listening && s.chans[s.calls[c].ch].bounced != []
    case ReturnsClosed(c) =>
      At(s, c) && Listens(s, s.calls[c]) && s.calls[c].listening && !s.chans[s.calls[c].ch].open
      && s.chans[s.calls[c].ch].bounced == []
    case TakeConfirm(c, _) => At(s, c) && Listens(s, s.calls[c]) && s.chans[s.calls[c].ch].confirms != []
    case ConfirmsClosed(c, _) =>
      At(s, c) && Listens(s, s.calls[c]) && !s.chans[s.calls[c].ch].open && s.chans[s.calls[c].ch].confirms == []
    case Cancel(c) => At(s, c) && s.calls[c].Awaiting?
    case Retire(c) => At(s, c) && s.calls[c].Leaving? && s.calls[c].retire.Some?
    case Release(c) => At(s, c) && s.calls[c].Leaving? && s.calls[c].retire.None?
    case Decide(c, again) => At(s, c) && s.calls[c].Failed? && (again ==> s.calls[c].try == 1 && !Usable(s))
    case RedialCheck(c) => At(s, c) && s.calls[c].Redialling?
    case RedialFails(c) => At(s, c) && s.calls[c].Cleared?
    case RedialOpen(c, ch) => At(s, c) && s.calls[c].Cleared? && ch !in s.chans
    case RedialInstall(c) => At(s, c) && s.calls[c].Opened?
    case Close => !s.closed
    case ChannelDies(ch) => ch in s.chans
    case BrokerReturns(ch) =>
      ch in s.chans && s.chans[ch].open && s.chans[ch].pending != [] && s.chans[ch].pending[0] !in s.returned
      && s.chans[ch].bounced == []
    case BrokerConfirms(ch, _) =>
      ch in s.chans && s.chans[ch].open && s.chans[ch].pending != [] && s.chans[ch].confirms == []
  }

  function Moved(s: State, c: Call, pc: Pc): State {
    s.(calls := s.calls[c := pc])
  }

  function Written(s: State, c: Call, ch: Ch, a: Attempt): State
    requires ch in s.chans
  {
    s.(chans := s.chans[ch := s.chans[ch].(pending := s.chans[ch].pending + [a])], origin := s.origin[a := (c, ch)])
  }

  /** `publishOn` learns the fate of its message from the confirm and from a
      return that may be waiting beside it. */
  function Verdict(chan: Chan, pc: Pc): Next
    requires pc.Awaiting? && chan.confirms != []
  {
    if pc.returned || (pc.listening && chan.bounced != []) then TryFailed
    else if !chan.confirms[0].1 then TryFailed
    else Success(pc.attempt)
  }

  function Confirmed(chan: Chan, pc: Pc): Chan
    requires pc.Awaiting? && chan.confirms != []
  {
    chan.(confirms := chan.confirms[1..],
          bounced := if !pc.returned && pc.listening && chan.bounced != [] then chan.bounced[1..] else chan.bounced)
  }

  function Do(s: State, a: Action): State
    requires Enabled(s, a)
  {
    match a
    case Begin(c) => Moved(s, c, Waiting(1))
    case GiveUp(c) => Moved(s, c, Done(None))
    case Acquire(c) =>
      Moved(s, c, if s.calls[c].Waiting? then Gated(s.calls[c].try) else Redialling).(gate := Some(c))
    case ReadChannel(c) =>
      if Usable(s) then Moved(s, c, Chosen(s.calls[c].try, s.publishCh.value))
      else Moved(s, c, Leaving(s.calls[c].try, TryFailed, None))
    case ReadStreams(c) => Moved(s, c, Armed(s.calls[c].try, s.calls[c].ch, s.streams))
    case RefuseDeadline(c) => Moved(s, c, Leaving(s.calls[c].try, TryFailed, Some(s.calls[c].ch)))
    case Write(c, a) =>
      var pc := s.calls[c];
      Moved(Written(s, c, pc.ch, a), c, Awaiting(pc.try, pc.ch, pc.streams, a, false, true))
    case WriteFails(c, a) =>
      var pc := s.calls[c];
      Moved(Written(s, c, pc.ch, a), c, Leaving(pc.try, TryFailed, Some(pc.ch)))
    case TakeReturn(c) =>
      var pc := s.calls[c];
      Moved(s, c, pc.(returned := true, listening := false))
        .(chans := s.chans[pc.ch := s.chans[pc.ch].(bounced := s.chans[pc.ch].bounced[1..])])
    case ReturnsClosed(c) => Moved(s, c, s.calls[c].(listening := false))
    case TakeConfirm(c, cancelled) =>
      var pc := s.calls[c];
      Moved(s, c, Leaving(pc.try, Verdict(s.chans[pc.ch], pc), if cancelled then Some(pc.ch) else None))
        .(chans := s.chans[pc.ch := Confirmed(s.chans[pc.ch], pc)])
    case ConfirmsClosed(c, cancelled) =>
      Moved(s, c, Leaving(s.calls[c].try, TryFailed, if cancelled then Some(s.calls[c].ch) else None))
    case Cancel(c) => Moved(s, c, Leaving(s.calls[c].try, TryFailed, Some(s.calls[c].ch)))
    case Retire(c) =>
      var pc := s.calls[c];
      var s1 := Moved(s, c, pc.(retire := None));
      if s.publishCh == pc.retire then s1.(publishCh := None, streams := None) else s1
    case Release(c) =>
      var pc := s.calls[c];
      Moved(s, c, match pc.next
                  case Success(a) => Done(Some(a))
                  case TryFailed => Failed(pc.try)
                  case CallFailed => Done(None)
                  case SecondTry => Waiting(2)).(gate := None)
    case Decide(c, again) => Moved(s, c, if again then WantsRedial else Done(None))
    case RedialCheck(c) =>
      if s.closed then Moved(s, c, Leaving(1, CallFailed, None))
      else if Usable(s) then Moved(s, c, Leaving(1, SecondTry, None))
      else Moved(s, c, Cleared).(publishCh := None, streams := None)
    case RedialFails(c) => Moved(s, c, Leaving(1, CallFailed, None))
    case RedialOpen(c, ch) => Moved(s, c, Opened(ch)).(chans := s.chans[ch := FRESH_CHAN], streams := Some(ch))
    case RedialInstall(c) =>
      if s.closed then Moved(s, c, Leaving(1, CallFailed, None))
      else Moved(s, c, Leaving(1, SecondTry, None)).(publishCh := Some(s.calls[c].ch))
    case Close => s.(closed := true, publishCh := None, streams := None)
    case ChannelDies(ch) => s.(chans := s.chans[ch := s.chans[ch].(open := false)])
    case BrokerReturns(ch) =>
      var a := s.chans[ch].pending[0];
      s.(returned := s.returned + {a}, chans := s.chans[ch := s.chans[ch].(bounced := s.chans[ch].bounced + [a])])
    case BrokerConfirms(ch, ack) =>
      var a := s.chans[ch].pending[0];
      s.(acked := if ack then s.acked + {a} else s.acked,
         chans := s.chans[ch := s.chans[ch].(pending := s.chans[ch].pending[1..],
                                             confirms := s.chans[ch].confirms + [(a, ack)])])
  }

  // ─── Invariant ──────────────────────────────────────────────────────────────

  /** No answer is outstanding. */
  predicate Clean(chan: Chan) {
    chan.pending == [] && chan.bounced == [] && chan.confirms == []
  }

  /** The broker has confirmed `a` positively and did not return it. */
  predicate Delivered(s: State, c: Call, a: Attempt) {
    && a in s.origin && s.origin[a].0 == c && s.origin[a].1 in s.chans
    && a !in s.chans[s.origin[a].1].pending && a in s.acked && a !in s.returned
  }

  predicate ChanOk(s: State, ch: Ch)
    requires ch in s.chans
  {
    var p := s.chans[ch].pending;
    |p| <= 1 && (p != [] ==> p[0] in s.origin && s.origin[p[0]].1 == ch && p[0] !in s.acked)
  }

  /** An open publisher channel carries nothing from an earlier publish. */
  predicate Settled(s: State) {
    s.publishCh.Some? && s.publishCh.value in s.chans && s.chans[s.publishCh.value].open ==>
      Clean(s.chans[s.publishCh.value])
  }

  predicate Only(x: Option<Ch>, ch: Ch) {
    x == None || x == Some(ch)
  }

  /** What is outstanding on the channel belongs to `pc.attempt` alone. */
  predicate AwaitOk(s: State, c: Call, pc: Pc)
    requires pc.Awaiting?
  {
    var a := pc.attempt;
    && pc.ch in s.chans && Only(pc.streams, pc.ch) && Only(s.publishCh, pc.ch)
    && a in s.origin && s.origin[a] == (c, pc.ch)
    && var chan := s.chans[pc.ch];
    && (if chan.pending == [a] then chan.confirms == []
        else chan.pending == [] && |chan.confirms| == 1 && chan.confirms[0].0 == a
             && (chan.confirms[0].1 <==> a in s.acked))
    && (if pc.returned then !pc.listening && chan.bounced == [] && a in s.returned
        else chan.bounced == if a in s.returned then [a] else [])
    && (!pc.returned && !pc.listening ==> !chan.open && chan.bounced == [])
  }

  predicate HolderOk(s: State, c: Call, pc: Pc) {
    match pc
    case Gated(_) => Settled(s)
    case Redialling => Settled(s)
    case Chosen(_, ch) => ch in s.chans && Clean(s.chans[ch]) && Only(s.publishCh, ch) && Only(s.streams, ch)
    case Armed(_, ch, streams) => ch in s.chans && Clean(s.chans[ch]) && Only(s.publishCh, ch) && Only(streams, ch)
    case Awaiting(_, _, _, _, _, _) => AwaitOk(s, c, pc)
    case Leaving(_, next, retire) =>
      && (if retire.Some? then Only(s.publishCh, retire.value) else Settled(s))
      && (next.Success? ==> Delivered(s, c, next.attempt))
    case Cleared => s.publishCh.None?
    case Opened(ch) =>
      s.publishCh.None? && ch in s.chans && Clean(s.chans[ch]) && (!s.closed ==> s.streams == Some(ch))
    case _ => true
  }

  ghost predicate Calls(s: State) {
    && (s.gate.Some? ==> s.gate.value in s.calls && HolderOk(s, s.gate.value, s.calls[s.gate.value]))
    && (s.gate.None? ==> Settled(s))
    && (forall c | c in s.calls :: HoldsGate(s.calls[c]) <==> s.gate == Some(c))
    && forall c | c in s.calls && s.calls[c].Done? && s.calls[c].result.Some? ::
         Delivered(s, c, s.calls[c].result.value)
  }

  ghost predicate Inv(s: State) {
    && (forall ch | ch in s.chans :: ChanOk(s, ch))
    && (s.publishCh.Some? ==> s.publishCh.value in s.chans && s.streams == s.publishCh && !s.closed)
    && (forall a | a in s.origin :: s.origin[a].1 in s.chans)
    && (forall a | a in s.acked || a in s.returned :: a in s.origin)
    && Calls(s)
  }

  // Actions that leave the channels and the broker's decisions alone.

  /** `c` moves to `pc`; at most the gate, the publisher fields and `closed` change besides. */
  ghost predicate MovedOnly(s: State, c: Call, pc: Pc, s': State) {
    && s'.chans == s.chans && s'.origin == s.origin && s'.acked == s.acked && s'.returned == s.returned
    && s'.calls == s.calls[c := pc] && s'.closed == s.closed
    && (s'.publishCh.Some? ==> s'.publishCh.value in s'.chans && s'.streams == s'.publishCh && !s'.closed)
  }

  /** The holder of the gate moves, and keeps the gate or gives it back. */
  lemma HolderKeeps(s: State, c: Call, pc: Pc, s': State)
    requires Inv(s) && s.gate == Some(c) && MovedOnly(s, c, pc, s')
    requires s'.gate == if HoldsGate(pc) then Some(c) else None
    requires if HoldsGate(pc) then HolderOk(s', c, pc) else Settled(s')
    requires pc.Done? && pc.result.Some? ==> Delivered(s, c, pc.result.value)
    ensures Inv(s')
  {
    forall x | x in s'.calls && s'.calls[x].Done? && s'.calls[x].result.Some?
      ensures Delivered(s', x, s'.calls[x].result.value)
    {
      if x != c {
        assert Delivered(s, x, s.calls[x].result.value);
      }
    }
  }

  /** A call without the gate moves, and takes the free gate or does without it. */
  lemma OutsiderKeeps(s: State, c: Call, pc: Pc, s': State)
    requires Inv(s) && s.gate != Some(c) && MovedOnly(s, c, pc, s')
    requires s'.publishCh == s.publishCh && s'.streams == s.streams
    requires if HoldsGate(pc) then s.gate.None? && s'.gate == Some(c) && (pc.Gated? || pc.Redialling?)
             else s'.gate == s.gate
    requires pc.Done? ==> pc.result.None?
    ensures Inv(s')
  {
    forall x | x in s'.calls && s'.calls[x].Done? && s'.calls[x].result.Some?
      ensures Delivered(s', x, s'.calls[x].result.value)
    {
      assert x != c && Delivered(s, x, s.calls[x].result.value);
    }
  }

  predicate MovesOutside(a: Action) {
    a.Begin? || a.GiveUp? || a.Acquire? || a.Decide?
  }

  predicate MovesPublisher(a: Action) {
    || a.ReadChannel? || a.ReadStreams? || a.RefuseDeadline? || a.ReturnsClosed? || a.ConfirmsClosed? || a.Cancel?
  }

  predicate MovesAway(a: Action) {
    a.Retire? || a.Release? || a.RedialCheck? || a.RedialFails? || a.RedialInstall?
  }

  /** Where a move leaves its caller. */
  ghost predicate Lands(s: State, c: Call, s': State) {
    && c in s'.calls && MovedOnly(s, c, s'.calls[c], s')
    && (s'.gate == if HoldsGate(s'.calls[c]) then Some(c) else None)
    && (if HoldsGate(s'.calls[c]) then HolderOk(s', c, s'.calls[c]) else Settled(s'))
    && (s'.calls[c].Done? && s'.calls[c].result.Some? ==> Delivered(s, c, s'.calls[c].result.value))
  }

  /** What a holder relies on. */
  ghost predicate Holding(s: State, c: Call) {
    && s.gate == Some(c) && c in s.calls && HoldsGate(s.calls[c]) && HolderOk(s, c, s.calls[c])
    && (s.publishCh.Some? ==> s.publishCh.value in s.chans && s.streams == s.publishCh && !s.closed)
  }

  lemma PublisherLands(s: State, a: Action)
    requires Enabled(s, a) && MovesPublisher(a) && Holding(s, a.c)
    ensures Lands(s, a.c, Do(s, a))
  {
  }

  lemma AwayLands(s: State, a: Action)
    requires Enabled(s, a) && MovesAway(a) && Holding(s, a.c)
    ensures Lands(s, a.c, Do(s, a))
  {
  }

  lemma OutsideKeeps(s: State, a: Action)
    requires Inv(s) && Enabled(s, a) && MovesOutside(a)
    ensures Inv(Do(s, a))
  {
    var s' := Do(s, a);
    assert a.c in s.calls ==> !HoldsGate(s.calls[a.c]);
    OutsiderKeeps(s, a.c, s'.calls[a.c], s');
  }

  lemma MovesHolderKeeps(s: State, a: Action)
    requires Inv(s) && Enabled(s, a) && (MovesPublisher(a) || MovesAway(a))
    ensures Inv(Do(s, a))
  {
    assert HoldsGate(s.calls[a.c]) && Holding(s, a.c);
    if MovesPublisher(a) {
      PublisherLands(s, a);
    } else {
      AwayLands(s, a);
    }
    LandingKeeps(s, a.c, Do(s, a));
  }

  lemma LandingKeeps(s: State, c: Call, s': State)
    requires Inv(s) && s.gate == Some(c) && Lands(s, c, s')
    ensures Inv(s')
  {
    HolderKeeps(s, c, s'.calls[c], s');
  }

  // Actions on one channel.

  /** `chan` replaces channel `ch`; nothing delivered so far is undone. */
  ghost predicate Rechannelled(s: State, ch: Ch, chan: Chan, s': State) {
    && s'.chans == s.chans[ch := chan]
    && (forall a | a in s.origin :: a in s'.origin && s'.origin[a] == s.origin[a])
    && (forall a | a in s'.origin :: a in s.origin || s'.origin[a].1 == ch)
    && s.acked <= s'.acked
    && (forall a | a in s'.acked :: a in s.acked || (ch in s.chans && s.chans[ch].pending == [a]))
    && (forall a | a in s'.returned :: a in s.returned || (ch in s.chans && s.chans[ch].pending == [a]))
    && (forall a | a in chan.pending :: a !in s.origin || (ch in s.chans && a in s.chans[ch].pending))
  }

  lemma StaysDelivered(s: State, ch: Ch, chan: Chan, s': State, c: Call, a: Attempt)
    requires Rechannelled(s, ch, chan, s') && Delivered(s, c, a)
    requires ch in s.chans ==> ChanOk(s, ch)
    ensures Delivered(s', c, a)
  {
  }

  lemma OthersStayOk(s: State, ch: Ch, chan: Chan, s': State, x: Ch)
    requires Rechannelled(s, ch, chan, s') && x in s.chans && x != ch && ChanOk(s, x)
    requires ch in s.chans ==> ChanOk(s, ch)
    ensures ChanOk(s', x)
  {
  }

  /** A change of one channel keeps the invariant if it suits the gate's holder. */
  lemma ChannelKeeps(s: State, ch: Ch, chan: Chan, s': State)
    requires Inv(s) && Rechannelled(s, ch, chan, s') && ChanOk(s', ch)
    requires s'.gate == s.gate && (s.gate.None? ==> s'.calls == s.calls && Settled(s'))
    requires s'.publishCh == s.publishCh && s'.closed == s.closed && (s.publishCh.Some? ==> s'.streams == s.streams)
    requires s.gate.Some? ==> var c := s.gate.value;
               c in s'.calls && HoldsGate(s'.calls[c]) && HolderOk(s', c, s'.calls[c])
                 && s'.calls == s.calls[c := s'.calls[c]]
    ensures Inv(s')
  {
    forall x | x in s'.chans ensures ChanOk(s', x) {
      if x != ch {
        OthersStayOk(s, ch, chan, s', x);
      }
    }
    forall x | x in s'.calls && s'.calls[x].Done? && s'.calls[x].result.Some?
      ensures Delivered(s', x, s'.calls[x].result.value)
    {
      assert x in s.calls && s'.calls[x] == s.calls[x];
      StaysDelivered(s, ch, chan, s', x, s.calls[x].result.value);
    }
  }

  /** The holder of the gate copes with what the broker does to channel `ch`. */
  ghost predicate HolderCopes(s: State, s': State) {
    && s'.gate == s.gate && s'.calls == s.calls
    && (s.gate.None? ==> Settled(s'))
    && (s.gate.Some? && s.gate.value in s.calls ==> HolderOk(s', s.gate.value, s.calls[s.gate.value]))
  }

  lemma DeathCopes(s: State, ch: Ch)
    requires Inv(s) && ch in s.chans
    ensures HolderCopes(s, Do(s, ChannelDies(ch)))
  {
  }

  lemma ReturnCopes(s: State, ch: Ch)
    requires Inv(s) && Enabled(s, BrokerReturns(ch))
    ensures HolderCopes(s, Do(s, BrokerReturns(ch)))
  {
    assert ChanOk(s, ch);
  }

  lemma ConfirmCopes(s: State, ch: Ch, ack: bool)
    requires Inv(s) && Enabled(s, BrokerConfirms(ch, ack))
    ensures HolderCopes(s, Do(s, BrokerConfirms(ch, ack)))
  {
    assert ChanOk(s, ch);
  }

  predicate MovesBroker(a: Action) {
    a.ChannelDies? || a.BrokerReturns? || a.BrokerConfirms?
  }

  lemma BrokerRechannels(s: State, a: Action)
    requires Enabled(s, a) && MovesBroker(a) && ChanOk(s, a.ch)
    ensures var s' := Do(s, a); a.ch in s'.chans && Rechannelled(s, a.ch, s'.chans[a.ch], s') && ChanOk(s', a.ch)
  {
  }

  lemma BrokerKeeps(s: State, a: Action)
    requires Inv(s) && Enabled(s, a) && MovesBroker(a)
    ensures Inv(Do(s, a))
  {
    match a {
      case ChannelDies(ch) => DeathCopes(s, ch);
      case BrokerReturns(ch) => ReturnCopes(s, ch);
      case BrokerConfirms(ch, ack) => ConfirmCopes(s, ch, ack);
    }
    assert ChanOk(s, a.ch);
    BrokerRechannels(s, a);
    CopingKeeps(s, a.ch, Do(s, a));
  }

  lemma CopingKeeps(s: State, ch: Ch, s': State)
    requires Inv(s) && HolderCopes(s, s')
    requires ch in s'.chans && Rechannelled(s, ch, s'.chans[ch], s') && ChanOk(s', ch)
    requires s'.publishCh == s.publishCh && s'.closed == s.closed && s'.streams == s.streams
    ensures Inv(s')
  {
    ChannelKeeps(s, ch, s'.chans[ch], s');
  }

  lemma CloseKeeps(s: State)
    requires Inv(s) && Enabled(s, Close)
    ensures Inv(Do(s, Close))
  {
    var s' := Do(s, Close);
    forall x | x in s'.chans ensures ChanOk(s', x) {
      assert ChanOk(s, x);
    }
    forall x | x in s'.calls && s'.calls[x].Done? && s'.calls[x].result.Some?
      ensures Delivered(s', x, s'.calls[x].result.value)
    {
      assert Delivered(s, x, s.calls[x].result.value);
    }
  }

  predicate MovesOnChannel(a: Action) {
    a.Write? || a.WriteFails? || a.TakeReturn? || a.TakeConfirm? || a.RedialOpen?
  }

  function TheChannel(s: State, a: Action): Ch
    requires Enabled(s, a) && MovesOnChannel(a)
  {
    match a
    case Write(c, _) => s.calls[c].ch
    case WriteFails(c, _) => s.calls[c].ch
    case TakeReturn(c) => s.calls[c].ch
    case TakeConfirm(c, _) => s.calls[c].ch
    case RedialOpen(_, ch) => ch
  }

  /** Everything `ChannelKeeps` asks of a holder's step. */
  ghost predicate OnChannel(s: State, c: Call, ch: Ch, s': State) {
    && ch in s'.chans && Rechannelled(s, ch, s'.chans[ch], s') && ChanOk(s', ch)
    && s'.gate == Some(c) && s'.publishCh == s.publishCh && s'.closed == s.closed
    && (s.publishCh.Some? ==> s'.streams == s.streams)
    && c in s'.calls && HoldsGate(s'.calls[c]) && HolderOk(s', c, s'.calls[c]) && s'.calls == s.calls[c := s'.calls[c]]
  }

  lemma WriteOnChannel(s: State, a: Action)
    requires Enabled(s, a) && (a.Write? || a.WriteFails?) && Holding(s, a.c)
    requires forall ch | ch in s.chans :: ChanOk(s, ch)
    requires a.attempt !in s.acked && a.attempt !in s.returned
    ensures OnChannel(s, a.c, TheChannel(s, a), Do(s, a))
  {
  }

  lemma TakeOnChannel(s: State, a: Action)
    requires Enabled(s, a) && (a.TakeReturn? || a.TakeConfirm?) && Holding(s, a.c)
    requires ChanOk(s, TheChannel(s, a))
    ensures OnChannel(s, a.c, TheChannel(s, a), Do(s, a))
  {
  }

  lemma OpenOnChannel(s: State, c: Call, ch: Ch)
    requires Enabled(s, RedialOpen(c, ch)) && Holding(s, c)
    ensures OnChannel(s, c, ch, Do(s, RedialOpen(c, ch)))
  {
  }

  lemma MovesOnChannelKeeps(s: State, a: Action)
    requires Inv(s) && Enabled(s, a) && MovesOnChannel(a)
    ensures Inv(Do(s, a))
  {
    MoverHolds(s, a);
    match a {
      case Write(_, _) => WriteOnChannel(s, a);
      case WriteFails(_, _) => WriteOnChannel(s, a);
      case TakeReturn(_) => TakeOnChannel(s, a);
      case TakeConfirm(_, _) => TakeOnChannel(s, a);
      case RedialOpen(c, ch) => OpenOnChannel(s, c, ch);
    }
    OnChannelKeeps(s, a.c, TheChannel(s, a), Do(s, a));
  }

  lemma MoverHolds(s: State, a: Action)
    requires Inv(s) && Enabled(s, a) && MovesOnChannel(a)
    ensures a.c in s.calls && HoldsGate(s.calls[a.c]) && Holding(s, a.c) && s.gate == Some(a.c)
    ensures a.TakeReturn? || a.TakeConfirm? ==> TheChannel(s, a) in s.chans && ChanOk(s, TheChannel(s, a))
    ensures a.Write? || a.WriteFails? ==> a.attempt !in s.acked && a.attempt !in s.returned
  {
  }

  lemma OnChannelKeeps(s: State, c: Call, ch: Ch, s': State)
    requires Inv(s) && s.gate == Some(c) && OnChannel(s, c, ch, s')
    ensures Inv(s')
  {
    ChannelKeeps(s, ch, s'.chans[ch], s');
  }

  lemma StepKeeps(s: State, a: Action)
    requires Inv(s) && Enabled(s, a)
    ensures Inv(Do(s, a))
  {
    if MovesOutside(a) {
      OutsideKeeps(s, a);
    } else if MovesPublisher(a) || MovesAway(a) {
      MovesHolderKeeps(s, a);
    } else if MovesOnChannel(a) {
      MovesOnChannelKeeps(s, a);
    } else if a.Close? {
      CloseKeeps(s);
    } else {
      BrokerKeeps(s, a);
    }
  }

  // ─── What every run keeps ───────────────────────────────────────────────────

  ghost predicate Possible(s: State, actions: seq<Action>)
    decreases |actions|
  {
    actions != [] ==> Enabled(s, actions[0]) && Possible(Do(s, actions[0]), actions[1..])
  }

  ghost function After(s: State, actions: seq<Action>): State
    requires Possible(s, actions)
    decreases |actions|
  {
    if actions == [] then s else After(Do(s, actions[0]), actions[1..])
  }

  /** A new connection with its first publisher channel. */
  const START: State := State(None, Some(0), Some(0), false, map[0 := FRESH_CHAN], map[], map[], {}, {})

  lemma {:induction false} RunKeeps(s: State, actions: seq<Action>)
    requires Inv(s) && Possible(s, actions)
    ensures Inv(After(s, actions))
    decreases |actions|
  {
    if actions != [] {
      StepKeeps(s, actions[0]);
      RunKeeps(Do(s, actions[0]), actions[1..]);
    }
  }

  ghost predicate Reachable(s: State) {
    exists actions :: Possible(START, actions) && After(START, actions) == s
  }

  lemma ReachableInv(s: State)
    requires Reachable(s)
    ensures Inv(s)
  {
    var actions :| Possible(START, actions) && After(START, actions) == s;
    RunKeeps(START, actions);
  }

  /** `Publish` returns without an error only if this very call wrote a message
      that the broker confirmed positively and did not return as unroutable. */
  lemma ConfirmAttribution(s: State, c: Call, a: Attempt)
    requires Reachable(s) && c in s.calls && s.calls[c] == Done(Some(a))
    ensures a in s.origin && s.origin[a].0 == c && a in s.acked && a !in s.returned
  {
    ReachableInv(s);
  }

  /** A confirm taken from the stream is judged by the fate of the caller's own
      message: the verdict is success exactly when that one arrived. */
  lemma VerdictIsExact(s: State, c: Call, cancelled: bool)
    requires Reachable(s) && Enabled(s, TakeConfirm(c, cancelled))
    ensures var pc := s.calls[c];
            Verdict(s.chans[pc.ch], pc).Success? <==> pc.attempt in s.acked && pc.attempt !in s.returned
  {
    ReachableInv(s);
    assert HoldsGate(s.calls[c]);
  }

  /** While nobody holds the gate, an open channel has no answer outstanding. */
  lemma FreeGateIsQuiet(s: State)
    requires Reachable(s) && s.gate.None? && Usable(s)
    ensures Clean(s.chans[s.publishCh.value])
  {
    ReachableInv(s);
  }

  /** At most one publish is in flight. */
  lemma OneInFlight(s: State, c: Call, d: Call)
    requires Reachable(s) && c in s.calls && d in s.calls && s.calls[c].Awaiting? && s.calls[d].Awaiting?
    ensures c == d
  {
    ReachableInv(s);
    assert HoldsGate(s.calls[c]) && HoldsGate(s.calls[d]);
  }

  // ─── The loop that waits for the confirm ────────────────────────────────────

  /** What one `select` of the loop picks. `alsoReturned`: a return lies in the
      buffer when the confirm is taken. */
  datatype Signal =
    | Return
    | ReturnsEnd
    | Confirm(ack: bool, alsoReturned: bool)
    | ConfirmsEnd
    | Cancelled

  datatype Answer = Published | Unroutable | Refused | Broken | Stopped | StillWaiting

  predicate Decides(x: Signal) {
    x.Confirm? || x.ConfirmsEnd? || x.Cancelled?
  }

  predicate FirstDecision(signals: seq<Signal>, k: nat) {
    k < |signals| && Decides(signals[k]) && forall j | 0 <= j < k :: !Decides(signals[j])
  }

  /** The stream of returns gave up its one message, or ended, before `k`. */
  predicate Heard(signals: seq<Signal>, k: nat)
    requires k <= |signals|
  {
    Return in signals[..k] || ReturnsEnd in signals[..k]
  }

  predicate Bounced(signals: seq<Signal>, k: nat)
    requires k < |signals|
  {
    || Return in signals[..k]
    || (signals[k].Confirm? && signals[k].alsoReturned && !Heard(signals, k))
  }

  function AnswerAt(signals: seq<Signal>, k: nat): Answer
    requires k < |signals| && Decides(signals[k])
  {
    match signals[k]
    case Confirm(ack, _) => if Bounced(signals, k) then Unroutable else if ack then Published else Refused
    case ConfirmsEnd => Broken
    case Cancelled => Stopped
  }

  /** A stream that is no longer listened to cannot be picked. */
  predicate Selectable(signals: seq<Signal>) {
    forall k | 0 <= k < |signals| && (signals[k].Return? || signals[k].ReturnsEnd?) :: !Heard(signals, k)
  }

  method AwaitConfirm(signals: seq<Signal>) returns (answer: Answer)
    requires Selectable(signals)
    ensures forall k | 0 <= k < |signals| && FirstDecision(signals, k) :: answer == AnswerAt(signals, k)
    ensures (forall k | 0 <= k < |signals| :: !Decides(signals[k])) ==> answer == StillWaiting
  {
    var returned, listening := false, true;
    var i := 0;
    while i < |signals|
      invariant 0 <= i <= |signals|
      invariant forall j | 0 <= j < i :: !Decides(signals[j])
      invariant returned == (Return in signals[..i]) && listening == !Heard(signals, i)
    {
      match signals[i] {
        case Return => returned, listening := true, false;
        case ReturnsEnd => listening := false;
        case ConfirmsEnd => return Broken;
        case Cancelled => return Stopped;
        case Confirm(ack, alsoReturned) =>
          if !returned && listening && alsoReturned {
            returned := true;
          }
          if returned {
            return Unroutable;
          }
          return if ack then Published else Refused;
      }
      i := i + 1;
    }
    return StillWaiting;
  }
}
