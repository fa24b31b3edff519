/** Publishing when nothing else goes on: a call gets its message through, and one whose
    channel has died opens another and gets it through there. And at most two messages
    are ever written for one call. */
module BrokerRuns {
  import opened Wrappers
  import opened Broker
  import BrokerWait

  ghost predicate Leads(s: State, actions: seq<Action>, s': State) {
    Possible(s, actions) && After(s, actions) == s'
  }

  lemma {:induction false} LeadsThen(s: State, first: seq<Action>, mid: State, rest: seq<Action>, s': State)
    requires Leads(s, first, mid) && Leads(mid, rest, s')
    ensures Leads(s, first + rest, s')
    decreases |first|
  {
    if first == [] {
      assert first + rest == rest;
    } else {
      assert (first + rest)[1..] == first[1..] + rest;
      LeadsThen(Do(s, first[0]), first[1..], mid, rest, s');
    }
  }

  lemma LeadsOn(s: State, actions: seq<Action>, mid: State, a: Action)
    requires Leads(s, actions, mid) && Enabled(mid, a)
    ensures Leads(s, actions + [a], Do(mid, a))
  {
    assert [a][1..] == [];
    assert Leads(mid, [a], Do(mid, a));
    LeadsThen(s, actions, mid, [a], Do(mid, a));
  }

  // ─── Undisturbed ────────────────────────────────────────────────────────────

  /** From the gate to the written message. */
  function WriteActions(c: Call, a: Attempt): seq<Action> {
    [Acquire(c), ReadChannel(c), ReadStreams(c), Write(c, a)]
  }

  function ConfirmActions(c: Call, ch: Ch): seq<Action> {
    [BrokerConfirms(ch, true), TakeConfirm(c, false), Release(c)]
  }

  /** A call that may go on, while nobody publishes. */
  predicate Free(s: State, c: Call) {
    s.gate.None? && c in s.calls && Usable(s)
  }

  lemma WriteLeads(s: State, c: Call, a: Attempt) returns (s': State)
    requires Inv(s) && Free(s, c) && s.calls[c].Waiting? && a !in s.origin
    ensures Leads(s, WriteActions(c, a), s')
    ensures var ch := s.publishCh.value;
            && s'.calls == s.calls[c := Awaiting(s.calls[c].try, ch, Some(ch), a, false, true)]
            && ch in s.chans && s'.chans == s.chans[ch := FRESH_CHAN.(pending := [a])]
            && s'.publishCh == s.publishCh && s'.streams == s.streams && s'.gate == Some(c)
            && s'.origin == s.origin[a := (c, ch)] && s'.acked == s.acked && s'.returned == s.returned
  {
    assert Clean(s.chans[s.publishCh.value]) && s.streams == s.publishCh;
    assert s.chans[s.publishCh.value].pending + [a] == [a];
    var s1 := Do(s, Acquire(c));
    var s2 := Do(s1, ReadChannel(c));
    var s3 := Do(s2, ReadStreams(c));
    s' := Do(s3, Write(c, a));
    assert Leads(s, [], s);
    LeadsOn(s, [], s, Acquire(c));
    LeadsOn(s, [] + [Acquire(c)], s1, ReadChannel(c));
    LeadsOn(s, [] + [Acquire(c)] + [ReadChannel(c)], s2, ReadStreams(c));
    LeadsOn(s, [] + [Acquire(c)] + [ReadChannel(c)] + [ReadStreams(c)], s3, Write(c, a));
    assert [] + [Acquire(c)] + [ReadChannel(c)] + [ReadStreams(c)] + [Write(c, a)] == WriteActions(c, a);
  }

  lemma ConfirmLeads(s: State, c: Call, a: Attempt, ch: Ch) returns (s': State)
    requires c in s.calls && s.calls[c].Awaiting? && s.calls[c].attempt == a && s.calls[c].ch == ch
    requires s.calls[c].streams == Some(ch) && !s.calls[c].returned && s.calls[c].listening
    requires ch in s.chans && s.chans[ch] == FRESH_CHAN.(pending := [a])
    ensures Leads(s, ConfirmActions(c, ch), s')
    ensures s'.calls == s.calls[c := Done(Some(a))] && s'.gate.None? && s'.acked == s.acked + {a}
    ensures s'.returned == s.returned && s'.publishCh == s.publishCh && ch in s'.chans && s'.chans[ch] == FRESH_CHAN
  {
    var s1 := Do(s, BrokerConfirms(ch, true));
    var s2 := Do(s1, TakeConfirm(c, false));
    s' := Do(s2, Release(c));
    assert s1.chans[ch].confirms == [(a, true)] && s1.chans[ch].bounced == [];
    assert Leads(s, [], s);
    LeadsOn(s, [], s, BrokerConfirms(ch, true));
    LeadsOn(s, [] + [BrokerConfirms(ch, true)], s1, TakeConfirm(c, false));
    LeadsOn(s, [] + [BrokerConfirms(ch, true)] + [TakeConfirm(c, false)], s2, Release(c));
    assert [] + [BrokerConfirms(ch, true)] + [TakeConfirm(c, false)] + [Release(c)] == ConfirmActions(c, ch);
  }

  /** An undisturbed call on a live channel writes its message once, and succeeds when the
      broker confirms it; the channel is then free for the next. */
  lemma PublishSucceeds(s: State, c: Call, a: Attempt) returns (s': State)
    requires Reachable(s) && Free(s, c) && s.calls[c].Waiting? && a !in s.origin
    ensures Leads(s, WriteActions(c, a) + ConfirmActions(c, s.publishCh.value), s')
    ensures s'.calls == s.calls[c := Done(Some(a))] && s'.gate.None? && a in s'.acked && Usable(s')
  {
    ReachableInv(s);
    var ch := s.publishCh.value;
    var mid := WriteLeads(s, c, a);
    s' := ConfirmLeads(mid, c, a, ch);
    LeadsThen(s, WriteActions(c, a), mid, ConfirmActions(c, ch), s');
    var all := WriteActions(c, a) + ConfirmActions(c, ch);
    RunKeeps(s, all);
  }

  function RedialActions(c: Call, ch: Ch): seq<Action> {
    [Decide(c, true), Acquire(c), RedialCheck(c), RedialOpen(c, ch), RedialInstall(c), Release(c)]
  }

  /** A first try that failed on a connection without a live channel is followed by a
      redial that installs a new one, and by the second try. */
  lemma RedialLeads(s: State, c: Call, ch: Ch) returns (s': State)
    requires s.gate.None? && c in s.calls && s.calls[c] == Failed(1) && !Usable(s) && !s.closed && ch !in s.chans
    ensures Leads(s, RedialActions(c, ch), s')
    ensures s'.calls == s.calls[c := Waiting(2)] && s'.gate.None? && s'.publishCh == Some(ch) && Usable(s')
    ensures s'.origin == s.origin
  {
    var mid := ClearedLeads(s, c);
    s' := OpenedLeads(mid, c, ch);
    var first, rest := [Decide(c, true), Acquire(c), RedialCheck(c)], [RedialOpen(c, ch), RedialInstall(c), Release(c)];
    LeadsThen(s, first, mid, rest, s');
    assert first + rest == RedialActions(c, ch);
  }

  lemma ClearedLeads(s: State, c: Call) returns (s': State)
    requires s.gate.None? && c in s.calls && s.calls[c] == Failed(1) && !Usable(s) && !s.closed
    ensures Leads(s, [Decide(c, true), Acquire(c), RedialCheck(c)], s')
    ensures s' == s.(calls := s.calls[c := Cleared], gate := Some(c), publishCh := None, streams := None)
  {
    var s1 := Do(s, Decide(c, true));
    var s2 := Do(s1, Acquire(c));
    s' := Do(s2, RedialCheck(c));
    assert Leads(s, [], s) && [] + [Decide(c, true)] == [Decide(c, true)];
    LeadsOn(s, [], s, Decide(c, true));
    LeadsOn(s, [Decide(c, true)], s1, Acquire(c));
    LeadsOn(s, [Decide(c, true)] + [Acquire(c)], s2, RedialCheck(c));
    assert [Decide(c, true)] + [Acquire(c)] + [RedialCheck(c)] == [Decide(c, true), Acquire(c), RedialCheck(c)];
  }

  lemma OpenedLeads(s: State, c: Call, ch: Ch) returns (s': State)
    requires c in s.calls && s.calls[c].Cleared? && !s.closed && ch !in s.chans
    ensures Leads(s, [RedialOpen(c, ch), RedialInstall(c), Release(c)], s')
    ensures s' == s.(calls := s.calls[c := Waiting(2)], gate := None, publishCh := Some(ch), streams := Some(ch),
                     chans := s.chans[ch := FRESH_CHAN])
  {
    var s1 := Do(s, RedialOpen(c, ch));
    var s2 := Do(s1, RedialInstall(c));
    s' := Do(s2, Release(c));
    assert Leads(s, [], s) && [] + [RedialOpen(c, ch)] == [RedialOpen(c, ch)];
    LeadsOn(s, [], s, RedialOpen(c, ch));
    LeadsOn(s, [RedialOpen(c, ch)], s1, RedialInstall(c));
    LeadsOn(s, [RedialOpen(c, ch)] + [RedialInstall(c)], s2, Release(c));
    assert [RedialOpen(c, ch)] + [RedialInstall(c)] + [Release(c)] == [RedialOpen(c, ch), RedialInstall(c), Release(c)];
  }

  /** So an undisturbed call outlives the death of its channel. */
  lemma SecondTrySucceeds(s: State, c: Call, ch: Ch, a: Attempt) returns (s': State)
    requires Reachable(s) && s.gate.None? && c in s.calls && s.calls[c] == Failed(1) && !Usable(s) && !s.closed
    requires ch !in s.chans && a !in s.origin
    ensures Leads(s, RedialActions(c, ch) + (WriteActions(c, a) + ConfirmActions(c, ch)), s')
    ensures s'.calls == s.calls[c := Done(Some(a))] && s'.gate.None? && a in s'.acked && Usable(s')
  {
    var mid := RedialLeads(s, c, ch);
    ReachesOn(s, RedialActions(c, ch), mid);
    s' := PublishSucceeds(mid, c, a);
    LeadsThen(s, RedialActions(c, ch), mid, WriteActions(c, a) + ConfirmActions(c, ch), s');
  }

  lemma ReachesOn(s: State, actions: seq<Action>, s': State)
    requires Reachable(s) && Leads(s, actions, s')
    ensures Reachable(s')
  {
    var before :| Possible(START, before) && After(START, before) == s;
    LeadsThen(START, before, s, actions, s');
    assert Possible(START, before + actions);
  }

  // ─── At most two messages ───────────────────────────────────────────────────

  /** The messages written for a call. */
  function WrittenFor(s: State, c: Call): set<Attempt> {
    set a | a in s.origin && s.origin[a].0 == c
  }

  /** How many messages a call in this place can have written. */
  function Writes(pc: Pc): nat {
    match pc
    case Waiting(try) => if try <= 1 then 0 else 1
    case Gated(try) => if try <= 1 then 0 else 1
    case Chosen(try, _) => if try <= 1 then 0 else 1
    case Armed(try, _, _) => if try <= 1 then 0 else 1
    case Awaiting(try, _, _, _, _, _) => if try <= 1 then 1 else 2
    case Leaving(try, _, _) => if try <= 1 then 1 else 2
    case Failed(try) => if try <= 1 then 1 else 2
    case Done(_) => 2
    case _ => 1
  }

  /** Only a first try is followed by a second. */
  predicate Orderly(pc: Pc) {
    pc.Leaving? && pc.next.SecondTry? ==> pc.try == 1
  }

  ghost predicate Sparing(s: State) {
    && (forall c | c in s.calls :: |WrittenFor(s, c)| <= Writes(s.calls[c]))
    && (forall a | a in s.origin :: s.origin[a].0 in s.calls)
    && forall c | c in s.calls :: Orderly(s.calls[c])
  }

  /** A step of the call itself that writes nothing. */
  predicate NoFewer(pc: Pc, pc': Pc) {
    Writes(pc) <= Writes(pc') && Orderly(pc')
  }

  lemma StartsNoFewer(s: State, a: Action)
    requires a.GiveUp? || a.Acquire? || a.ReadChannel? || a.ReadStreams? || a.RefuseDeadline? || a.Decide?
    requires Enabled(s, a)
    ensures a.c in Do(s, a).calls && NoFewer(s.calls[a.c], Do(s, a).calls[a.c])
  {
  }

  lemma WaitsNoFewer(s: State, a: Action)
    requires Enabled(s, a)
    requires a.TakeReturn? || a.ReturnsClosed? || a.TakeConfirm? || a.ConfirmsClosed? || a.Cancel?
    ensures a.c in Do(s, a).calls && NoFewer(s.calls[a.c], Do(s, a).calls[a.c])
  {
  }

  lemma EndsNoFewer(s: State, a: Action)
    requires a.Retire? || a.Release? || a.RedialCheck? || a.RedialFails? || a.RedialOpen? || a.RedialInstall?
    requires Enabled(s, a) && Orderly(s.calls[a.c])
    ensures a.c in Do(s, a).calls && NoFewer(s.calls[a.c], Do(s, a).calls[a.c])
  {
  }

  lemma OthersStand(s: State, a: Action, c: Call)
    requires Enabled(s, a) && c in s.calls && (BrokerWait.Environment(a) || a.c != c)
    ensures c in Do(s, a).calls && Do(s, a).calls[c] == s.calls[c]
  {
    if BrokerWait.Environment(a) {
      assert Do(s, a).calls == s.calls;
    } else {
      OnlyOwnMoves(s, a);
    }
  }

  lemma OnlyOwnMoves(s: State, a: Action)
    requires Enabled(s, a) && !BrokerWait.Environment(a)
    ensures a.c in Do(s, a).calls && Do(s, a).calls == s.calls[a.c := Do(s, a).calls[a.c]]
  {
  }

  lemma OwnNoFewer(s: State, a: Action)
    requires !BrokerWait.Environment(a) && !a.Begin? && !a.Write? && !a.WriteFails?
    requires Enabled(s, a) && a.c in s.calls && Orderly(s.calls[a.c])
    ensures a.c in Do(s, a).calls && NoFewer(s.calls[a.c], Do(s, a).calls[a.c])
  {
    if a.TakeReturn? || a.ReturnsClosed? || a.TakeConfirm? || a.ConfirmsClosed? || a.Cancel? {
      WaitsNoFewer(s, a);
    } else if a.Retire? || a.Release? || a.RedialCheck? || a.RedialFails? || a.RedialOpen? || a.RedialInstall? {
      EndsNoFewer(s, a);
    } else {
      StartsNoFewer(s, a);
    }
  }

  lemma SameOrigin(s: State, a: Action)
    requires Enabled(s, a) && !a.Write? && !a.WriteFails?
    ensures Do(s, a).origin == s.origin
  {
    match a {
      case TakeReturn(_) => AnswerKeepsOrigin(s, a);
      case TakeConfirm(_, _) => AnswerKeepsOrigin(s, a);
      case BrokerReturns(_) => AnswerKeepsOrigin(s, a);
      case BrokerConfirms(_, _) => AnswerKeepsOrigin(s, a);
      case _ =>
    }
  }

  lemma AnswerKeepsOrigin(s: State, a: Action)
    requires Enabled(s, a) && (a.TakeReturn? || a.TakeConfirm? || a.BrokerReturns? || a.BrokerConfirms?)
    ensures Do(s, a).origin == s.origin
  {
  }

  lemma WriteMoves(s: State, a: Action)
    requires Enabled(s, a) && (a.Write? || a.WriteFails?)
    ensures var s', pc := Do(s, a), s.calls[a.c];
            && s'.origin == s.origin[a.attempt := (a.c, pc.ch)] && a.attempt !in s.origin
            && a.c in s'.calls && s'.calls == s.calls[a.c := s'.calls[a.c]]
            && Writes(s'.calls[a.c]) == Writes(pc) + 1 && Orderly(s'.calls[a.c])
  {
  }

  lemma OneMoreWritten(s: State, a: Action)
    requires Sparing(s) && Enabled(s, a) && (a.Write? || a.WriteFails?)
    ensures Sparing(Do(s, a))
  {
    WriteMoves(s, a);
    WriteCounted(s, a.c, s.calls[a.c].ch, a.attempt, Do(s, a));
  }

  lemma WriteCounted(s: State, c: Call, ch: Ch, a: Attempt, s': State)
    requires Sparing(s) && c in s.calls && a !in s.origin && s'.origin == s.origin[a := (c, ch)]
    requires c in s'.calls && s'.calls == s.calls[c := s'.calls[c]]
    requires Writes(s'.calls[c]) == Writes(s.calls[c]) + 1 && Orderly(s'.calls[c])
    ensures Sparing(s')
  {
    forall x | x in s'.calls ensures |WrittenFor(s', x)| <= Writes(s'.calls[x]) {
      NowWritten(s, c, ch, a, s', x);
    }
  }

  lemma NowWritten(s: State, c: Call, ch: Ch, a: Attempt, s': State, x: Call)
    requires a !in s.origin && s'.origin == s.origin[a := (c, ch)]
    ensures WrittenFor(s', x) == WrittenFor(s, x) + if x == c then {a} else {}
    ensures |WrittenFor(s', x)| == |WrittenFor(s, x)| + if x == c then 1 else 0
  {
    assert WrittenFor(s', x) == WrittenFor(s, x) + if x == c then {a} else {};
  }

  lemma StepSpares(s: State, a: Action)
    requires Sparing(s) && Enabled(s, a)
    ensures Sparing(Do(s, a))
  {
    if a.Write? || a.WriteFails? {
      OneMoreWritten(s, a);
    } else {
      SameOrigin(s, a);
      forall c | c in s.calls ensures c in Do(s, a).calls && Writes(s.calls[c]) <= Writes(Do(s, a).calls[c])
                                      && Orderly(Do(s, a).calls[c])
      {
        if BrokerWait.Environment(a) || a.c != c {
          OthersStand(s, a, c);
        } else {
          OwnNoFewer(s, a);
        }
      }
      NewCalls(s, a);
      StaysSparing(s, Do(s, a));
    }
  }

  lemma NewCalls(s: State, a: Action)
    requires Enabled(s, a)
    ensures forall c | c in Do(s, a).calls && c !in s.calls :: Do(s, a).calls[c] == Waiting(1)
  {
  }

  lemma StaysSparing(s: State, s': State)
    requires Sparing(s) && s'.origin == s.origin
    requires forall c | c in s.calls ::
               c in s'.calls && Writes(s.calls[c]) <= Writes(s'.calls[c]) && Orderly(s'.calls[c])
    requires forall c | c in s'.calls && c !in s.calls :: s'.calls[c] == Waiting(1)
    ensures Sparing(s')
  {
    forall c | c in s'.calls ensures |WrittenFor(s', c)| <= Writes(s'.calls[c]) {
      assert WrittenFor(s', c) == WrittenFor(s, c);
      if c !in s.calls {
        assert WrittenFor(s, c) == {};
      }
    }
  }

  lemma {:induction false} RunSpares(s: State, actions: seq<Action>)
    requires Sparing(s) && Possible(s, actions)
    ensures Sparing(After(s, actions))
    decreases |actions|
  {
    if actions != [] {
      StepSpares(s, actions[0]);
      RunSpares(Do(s, actions[0]), actions[1..]);
    }
  }

  /** However calls, failures and redials interleave, no call writes its message to the
      broker more than twice. */
  lemma TwoMessagesAtMost(s: State, c: Call)
    requires Reachable(s) && c in s.calls
    ensures |WrittenFor(s, c)| <= 2
  {
    var actions :| Possible(START, actions) && After(START, actions) == s;
    RunSpares(START, actions);
  }
}
