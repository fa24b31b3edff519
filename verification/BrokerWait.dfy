/** The loop that waits for a confirm, inside the protocol: what it answers over the
    signals it picks is the verdict the protocol reaches. */
module BrokerWait {
  import opened Wrappers
  import opened Broker

  predicate Awaits(s: State, c: Call) {
    c in s.calls && s.calls[c].Awaiting?
  }

  /** What the call's loop picks when the action happens. */
  function SignalOf(s: State, a: Action, c: Call): seq<Signal>
    requires Enabled(s, a) && Awaits(s, c)
  {
    match a
    case TakeReturn(x) => if x == c then [Signal.Return] else []
    case ReturnsClosed(x) => if x == c then [ReturnsEnd] else []
    case TakeConfirm(x, _) =>
      if x == c then
        var chan := s.chans[s.calls[c].ch];
        [Confirm(chan.confirms[0].1, chan.bounced != [])]
      else []
    case ConfirmsClosed(x, _) => if x == c then [ConfirmsEnd] else []
    case Cancel(x) => if x == c then [Signal.Cancelled] else []
    case _ => []
  }

  /** The loop's variables are what the signals say. */
  predicate Heeds(pc: Pc, signals: seq<Signal>) {
    && pc.Awaiting? && Selectable(signals) && (forall k | 0 <= k < |signals| :: !Decides(signals[k]))
    && pc.returned == (Signal.Return in signals) && pc.listening == !Heard(signals, |signals|)
  }

  predicate Decided(signals: seq<Signal>) {
    exists k :: 0 <= k < |signals| && Decides(signals[k])
  }

  /** What a picked signal does to the loop, and the verdict it leads to. */
  predicate Picks(pc: Pc, x: Signal, pc': Pc)
    requires pc.Awaiting?
  {
    match x
    case Return => pc.listening && pc' == pc.(returned := true, listening := false)
    case ReturnsEnd => pc.listening && pc' == pc.(listening := false)
    case Confirm(ack, alsoReturned) =>
      pc'.Leaving? && (pc'.next.Success? <==> ack && !pc.returned && !(pc.listening && alsoReturned))
    case _ => pc'.Leaving? && !pc'.next.Success?
  }

  lemma OwnStep(s: State, a: Action, c: Call)
    requires Enabled(s, a) && Awaits(s, c) && SignalOf(s, a, c) != []
    ensures |SignalOf(s, a, c)| == 1 && c in Do(s, a).calls
            && Picks(s.calls[c], SignalOf(s, a, c)[0], Do(s, a).calls[c])
  {
  }

  predicate Environment(a: Action) {
    a.Close? || a.ChannelDies? || a.BrokerReturns? || a.BrokerConfirms?
  }

  lemma EnvironmentStep(s: State, a: Action)
    requires Enabled(s, a) && Environment(a)
    ensures Do(s, a).calls == s.calls
  {
  }

  lemma OtherCallStep(s: State, a: Action, c: Call)
    requires Enabled(s, a) && Awaits(s, c) && !Environment(a) && a.c != c
    ensures c in Do(s, a).calls && Do(s, a).calls[c] == s.calls[c]
  {
  }

  /** A waiting call does nothing but pick signals. */
  lemma OwnActionsSignal(s: State, a: Action)
    requires Enabled(s, a) && !Environment(a) && Awaits(s, a.c)
    ensures SignalOf(s, a, a.c) != []
  {
  }

  lemma OthersStep(s: State, a: Action, c: Call)
    requires Enabled(s, a) && Awaits(s, c) && SignalOf(s, a, c) == []
    ensures c in Do(s, a).calls && Do(s, a).calls[c] == s.calls[c]
  {
    if Environment(a) {
      EnvironmentStep(s, a);
    } else if a.c == c {
      OwnActionsSignal(s, a);
    } else {
      OtherCallStep(s, a, c);
    }
  }

  lemma SelectableMore(signals: seq<Signal>, x: Signal)
    requires Selectable(signals) && (x.Return? || x.ReturnsEnd? ==> !Heard(signals, |signals|))
    ensures Selectable(signals + [x]) && (signals + [x])[..|signals|] == signals
    ensures Signal.Return in signals + [x] <==> Signal.Return in signals || x.Return?
    ensures Heard(signals + [x], |signals| + 1) <==> Heard(signals, |signals|) || x.Return? || x.ReturnsEnd?
  {
    var more := signals + [x];
    assert signals[..|signals|] == signals && more[..|more|] == more;
    forall k | 0 <= k < |more| && (more[k].Return? || more[k].ReturnsEnd?) ensures !Heard(more, k) {
      if k < |signals| {
        assert more[..k] == signals[..k] && more[k] == signals[k];
      } else {
        assert more[..k] == signals;
      }
    }
  }

  lemma HeedsMore(s: State, a: Action, c: Call, signals: seq<Signal>)
    requires Enabled(s, a) && Awaits(s, c) && Heeds(s.calls[c], signals) && !Decided(SignalOf(s, a, c))
    ensures Awaits(Do(s, a), c) && Heeds(Do(s, a).calls[c], signals + SignalOf(s, a, c))
  {
    var x := SignalOf(s, a, c);
    if x == [] {
      OthersStep(s, a, c);
      assert signals + x == signals;
    } else {
      OwnStep(s, a, c);
      assert x == [x[0]] && !Decides(x[0]);
      SelectableMore(signals, x[0]);
    }
  }

  /** The signals a call picks up along a run, until its loop has decided. */
  ghost function Signals(s: State, actions: seq<Action>, c: Call): seq<Signal>
    requires Possible(s, actions)
    decreases |actions|
  {
    if actions == [] || !Awaits(s, c) then []
    else
      var x := SignalOf(s, actions[0], c);
      if Decided(x) then x else x + Signals(Do(s, actions[0]), actions[1..], c)
  }

  lemma SignalsGoOn(s: State, actions: seq<Action>, c: Call)
    requires Possible(s, actions) && actions != [] && Awaits(s, c) && !Decided(Signals(s, actions, c))
    ensures var x, rest := SignalOf(s, actions[0], c), Signals(Do(s, actions[0]), actions[1..], c);
            !Decided(x) && Signals(s, actions, c) == x + rest && !Decided(rest)
  {
    var x, rest := SignalOf(s, actions[0], c), Signals(Do(s, actions[0]), actions[1..], c);
    if !Decided(x) {
      NotDecidedInParts(x, rest);
    }
  }

  /** One action of a run in which the loop does not decide. */
  lemma FirstHeeds(s: State, actions: seq<Action>, c: Call, before: seq<Signal>) returns (s1: State, next: seq<Signal>)
    requires Possible(s, actions) && actions != [] && Awaits(s, c) && Heeds(s.calls[c], before)
    requires !Decided(Signals(s, actions, c))
    ensures Possible(s1, actions[1..]) && After(s, actions) == After(s1, actions[1..])
    ensures Awaits(s1, c) && Heeds(s1.calls[c], next) && !Decided(Signals(s1, actions[1..], c))
    ensures before + Signals(s, actions, c) == next + Signals(s1, actions[1..], c)
  {
    s1 := Do(s, actions[0]);
    SignalsGoOn(s, actions, c);
    HeedsMore(s, actions[0], c, before);
    next := before + SignalOf(s, actions[0], c);
  }

  lemma {:induction false} HeedsAlong(s: State, actions: seq<Action>, c: Call, before: seq<Signal>)
    requires Possible(s, actions) && Awaits(s, c) && Heeds(s.calls[c], before) && !Decided(Signals(s, actions, c))
    ensures Awaits(After(s, actions), c) && Heeds(After(s, actions).calls[c], before + Signals(s, actions, c))
    decreases |actions|
  {
    if actions == [] {
      assert before + [] == before;
    } else {
      var s1, next := FirstHeeds(s, actions, c, before);
      HeedsAlong(s1, actions[1..], c, next);
    }
  }

  lemma NotDecidedInParts(x: seq<Signal>, y: seq<Signal>)
    requires !Decided(x + y)
    ensures !Decided(y)
  {
    forall k | 0 <= k < |y| ensures !Decides(y[k]) {
      assert (x + y)[|x| + k] == y[k];
    }
  }

  /** A waiting call that has just written. */
  predicate JustWrote(s: State, c: Call) {
    Awaits(s, c) && !s.calls[c].returned && s.calls[c].listening
  }

  /** The answer of the loop to signals whose last decides. */
  lemma LastAnswers(pc: Pc, before: seq<Signal>, x: Signal, pc': Pc)
    requires Heeds(pc, before) && Decides(x) && Picks(pc, x, pc')
    ensures var n, signals := |before|, before + [x];
            Selectable(signals) && FirstDecision(signals, n)
              && (pc'.next.Success? <==> AnswerAt(signals, n) == Published)
  {
    SelectableMore(before, x);
    assert before[..|before|] == before;
  }

  /** From the write to the decision: the signals the loop has picked, whatever else
      went on, are ones it can pick, and the call succeeds exactly if the loop's
      answer to them is that the message was published. */
  lemma LoopIsVerdict(s: State, actions: seq<Action>, c: Call, last: Action)
    requires JustWrote(s, c) && Possible(s, actions) && !Decided(Signals(s, actions, c))
    requires Awaits(After(s, actions), c) && Enabled(After(s, actions), last)
    requires Decided(SignalOf(After(s, actions), last, c))
    ensures var s1 := After(s, actions);
            var n, signals := |Signals(s, actions, c)|, Signals(s, actions, c) + SignalOf(s1, last, c);
            && Selectable(signals) && |signals| == n + 1 && FirstDecision(signals, n)
            && c in Do(s1, last).calls && Do(s1, last).calls[c].Leaving?
            && (Do(s1, last).calls[c].next.Success? <==> AnswerAt(signals, n) == Published)
  {
    var s1, before := After(s, actions), Signals(s, actions, c);
    HeedsAtEnd(s, actions, c);
    OwnStep(s1, last, c);
    var x := SignalOf(s1, last, c);
    assert x == [x[0]] && Decides(x[0]);
    LastAnswers(s1.calls[c], before, x[0], Do(s1, last).calls[c]);
  }

  lemma HeedsAtEnd(s: State, actions: seq<Action>, c: Call)
    requires JustWrote(s, c) && Possible(s, actions) && !Decided(Signals(s, actions, c))
    ensures Awaits(After(s, actions), c) && Heeds(After(s, actions).calls[c], Signals(s, actions, c))
  {
    assert Heeds(s.calls[c], []);
    HeedsAlong(s, actions, c, []);
    assert [] + Signals(s, actions, c) == Signals(s, actions, c);
  }

  /** What the loop's answer means: at a confirm it tells the fate of the call's own
      message, returned, confirmed or refused; otherwise why there was none. */
  lemma AnswerIsExact(s: State, actions: seq<Action>, c: Call, last: Action)
    requires Reachable(s) && JustWrote(s, c) && Possible(s, actions) && !Decided(Signals(s, actions, c))
    requires Awaits(After(s, actions), c) && Enabled(After(s, actions), last)
    requires Decided(SignalOf(After(s, actions), last, c))
    ensures var s1 := After(s, actions);
            var n, signals := |Signals(s, actions, c)|, Signals(s, actions, c) + SignalOf(s1, last, c);
            var a := s1.calls[c].attempt;
            && FirstDecision(signals, n) && a in s1.origin && s1.origin[a].0 == c
            && AnswerAt(signals, n) ==
               if last.ConfirmsClosed? then Broken
               else if last.Cancel? then Stopped
               else if a in s1.returned then Unroutable
               else if a in s1.acked then Published
               else Refused
  {
    LoopIsVerdict(s, actions, c, last);
    HeedsAtEnd(s, actions, c);
    ReachableInv(s);
    RunKeeps(s, actions);
    DecisionTells(After(s, actions), c, last, Signals(s, actions, c));
  }

  lemma DecisionTells(s: State, c: Call, last: Action, before: seq<Signal>)
    requires Inv(s) && Awaits(s, c) && Heeds(s.calls[c], before) && Enabled(s, last)
    requires Decided(SignalOf(s, last, c)) && |SignalOf(s, last, c)| == 1
    ensures var a := s.calls[c].attempt;
            && a in s.origin && s.origin[a].0 == c
            && AnswerAt(before + SignalOf(s, last, c), |before|) ==
               if last.ConfirmsClosed? then Broken
               else if last.Cancel? then Stopped
               else if a in s.returned then Unroutable
               else if a in s.acked then Published
               else Refused
  {
    assert HoldsGate(s.calls[c]) && AwaitOk(s, c, s.calls[c]);
    assert (before + SignalOf(s, last, c))[..|before|] == before && before[..|before|] == before;
  }
}
