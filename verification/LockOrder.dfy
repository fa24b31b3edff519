/** The serial order of `Transactions` is the order of the locks, and every command,
    committed or not, answers what it would have answered alone at its place in it.

    Here each step is recorded with the locks it takes and the answers it gives. */
module LockOrder {
  import opened Wrappers
  import opened GatewayDb
  import opened Gateway
  import T = Transactions

  type TxId = T.TxId

  /** A lock, and how many operations had taken effect when it was taken. */
  datatype Grab = Grab(tid: TxId, product: Id, since: nat)

  /** What an ended transaction answered, and how many operations had taken effect. */
  datatype Answer = Answer(op: Op, at: nat, outcome: Outcome)

  /** `touched`: the products each logged operation touched. */
  datatype Traced = Traced(world: T.World, touched: seq<set<Id>>, grabs: seq<Grab>, ended: set<TxId>,
                           answers: map<TxId, Answer>)

  const START: Traced := Traced(T.START, [], [], {}, map[])

  // ─── Steps ──────────────────────────────────────────────────────────────────

  /** Transaction ids are not used twice. */
  ghost predicate Enabled(t: Traced, a: T.Action) {
    T.Enabled(t.world, a) && (a.Begin? ==> a.tid !in t.ended)
  }

  /** The lock that a statement takes. */
  ghost function Takes(w: T.World, a: T.Action): Option<Id> {
    if a.Advance? && a.tid in w.txs then
      var tx := w.txs[a.tid];
      if tx.pc.Lock? && tx.pc.i < |tx.targets| && T.Statement(w.db, tx).GoesOn? then Some(tx.targets[tx.pc.i]) else None
    else None
  }

  ghost predicate Answers(w: T.World, a: T.Action) {
    a.Advance? && a.tid in w.txs && T.Statement(w.db, w.txs[a.tid]).Ends?
  }

  ghost function AnswerOf(w: T.World, a: T.Action): Answer
    requires Answers(w, a)
  {
    Answer(T.OpOf(w.txs[a.tid]), |w.log|, T.Statement(w.db, w.txs[a.tid]).outcome)
  }

  ghost function TouchedNow(w: T.World, w': T.World): seq<set<Id>> {
    if |w.log| < |w'.log| then [T.Touched(w.db, w'.log[|w.log|])] else []
  }

  ghost function Do(t: Traced, a: T.Action): Traced
    requires Enabled(t, a)
  {
    var w, w' := t.world, T.Do(t.world, a);
    var grabs := if Takes(w, a).Some? then [Grab(a.tid, Takes(w, a).value, |w.log|)] else [];
    Traced(w', t.touched + TouchedNow(w, w'), t.grabs + grabs,
           if Answers(w, a) || a.Abort? then t.ended + {a.tid} else t.ended,
           if Answers(w, a) then t.answers[a.tid := AnswerOf(w, a)] else t.answers)
  }

  // ─── Invariant ──────────────────────────────────────────────────────────────

  /** The answer is the operation's own, run on the serial prefix before it. */
  ghost predicate AnswerOk(log: seq<Op>, x: Answer) {
    && x.at <= |log| && AdmissibleRun(EMPTY, log[..x.at]) && Admissible(Run(EMPTY, log[..x.at]), x.op)
    && Apply(Run(EMPTY, log[..x.at]), x.op).1 == x.outcome
    && (x.outcome == Committed ==> x.at < |log| && log[x.at] == x.op)
  }

  ghost predicate TouchedOk(log: seq<Op>, touched: seq<set<Id>>, k: nat)
    requires k < |log| == |touched|
  {
    AdmissibleRun(EMPTY, log[..k]) && touched[k] == T.Touched(Run(EMPTY, log[..k]), log[k])
  }

  /** No operation between the two points touches the product. */
  predicate Quiet(touched: seq<set<Id>>, p: Id, from: nat, to: nat) {
    to <= |touched| && forall k | from <= k < to :: p !in touched[k]
  }

  predicate CommittedAt(t: Traced, tid: TxId, at: nat) {
    tid in t.answers && t.answers[tid].outcome == Committed && t.answers[tid].at == at
  }

  ghost predicate GrabOk(t: Traced, g: Grab) {
    && g.since <= |t.touched| && (g.tid in t.world.txs || g.tid in t.ended)
    && (g.tid in t.world.txs ==>
          && g.product in t.world.owner && t.world.owner[g.product] == g.tid
          && Quiet(t.touched, g.product, g.since, |t.touched|))
    && forall at: nat | CommittedAt(t, g.tid, at) :: g.since <= at && Quiet(t.touched, g.product, g.since, at)
  }

  /** The earlier of two locks on a product was over before the later was taken. */
  ghost predicate GrabsOrdered(t: Traced, g: Grab, h: Grab) {
    g.product == h.product && g.tid != h.tid ==>
      g.tid in t.ended && forall at: nat | CommittedAt(t, g.tid, at) :: at < h.since
  }

  ghost predicate Books(t: Traced) {
    && |t.touched| == |t.world.log| && t.ended !! t.world.txs.Keys && t.answers.Keys <= t.ended
    && (forall tid | tid in t.answers :: AnswerOk(t.world.log, t.answers[tid]))
    && forall k | 0 <= k < |t.touched| :: TouchedOk(t.world.log, t.touched, k)
  }

  ghost predicate Locks(t: Traced) {
    && (forall i | 0 <= i < |t.grabs| :: GrabOk(t, t.grabs[i]))
    && forall i, j | 0 <= i < j < |t.grabs| :: GrabsOrdered(t, t.grabs[i], t.grabs[j])
  }

  ghost predicate Inv(t: Traced) {
    T.WorldInv(t.world) && T.Serial(EMPTY, t.world) && Books(t) && Locks(t)
  }

  // ─── What a step does to the log ────────────────────────────────────────────

  /** A step logs nothing, or one operation that touches no product locked by another. */
  ghost predicate Logs(w: T.World, a: T.Action, w': T.World) {
    || w'.log == w.log
    || (&& |w'.log| == |w.log| + 1 && w'.log[..|w.log|] == w.log && (a.Atomic? || a.Advance?)
        && forall p | p in w.owner && p in T.Touched(w.db, w'.log[|w.log|]) :: a.Advance? && w.owner[p] == a.tid)
  }

  lemma AdvanceLogs(w: T.World, tid: TxId)
    requires T.WorldInv(w) && T.Enabled(w, T.Advance(tid))
    ensures Logs(w, T.Advance(tid), T.Do(w, T.Advance(tid)))
  {
    var w' := T.Do(w, T.Advance(tid));
    if w'.log != w.log {
      if !w.txs[tid].pc.Commit? {
        T.EarlyEndsUnchanged(w.db, w.txs[tid]);
      }
      T.OwnLocks(w, tid);
      assert w'.log == w.log + [T.OpOf(w.txs[tid])];
      forall p | p in w.owner && p in T.Touched(w.db, w'.log[|w.log|]) ensures w.owner[p] == tid {
        assert p !in T.Released(w, tid).owner;
      }
    }
  }

  lemma StepLogs(w: T.World, a: T.Action)
    requires T.WorldInv(w) && T.Enabled(w, a)
    ensures Logs(w, a, T.Do(w, a))
  {
    match a
    case Advance(tid) => AdvanceLogs(w, tid);
    case Atomic(op) => assert T.Do(w, a).log[..|w.log|] == w.log;
    case _ =>
  }

  /** What an ending transaction answers is what its operation would. */
  lemma AnswerIsAtomic(w: T.World, a: T.Action)
    requires T.WorldInv(w) && T.Serial(EMPTY, w) && Answers(w, a) && T.Enabled(w, a)
    ensures AnswerOk(T.Do(w, a).log, AnswerOf(w, a))
  {
    var tx := w.txs[a.tid];
    IsAdmissible(w, a.tid);
    T.EndsAtomically(w.db, tx);
    var log := T.Do(w, a).log;
    assert log[..|w.log|] == w.log;
  }

  lemma IsAdmissible(w: T.World, tid: TxId)
    requires T.WorldInv(w) && tid in w.txs
    ensures Admissible(w.db, T.OpOf(w.txs[tid]))
  {
    assert T.TxInv(w.db, w.txs[tid]);
  }

  // ─── Every step keeps the books ─────────────────────────────────────────────

  predicate EndsNow(w: T.World, w': T.World, a: T.Action) {
    (a.Advance? || a.Abort?) && a.tid in w.txs && a.tid !in w'.txs
  }

  /** How a step changes who runs and who owns. */
  ghost predicate Moves(w: T.World, a: T.Action, w': T.World) {
    && w'.txs.Keys == (if a.Begin? then w.txs.Keys + {a.tid} else if EndsNow(w, w', a) then w.txs.Keys - {a.tid}
                       else w.txs.Keys)
    && (a.Begin? ==> a.tid !in w.txs)
    && (if Takes(w, a).Some? then
          Takes(w, a).value !in w.owner && w'.owner == w.owner[Takes(w, a).value := a.tid] && a.tid in w'.txs
        else forall p | p in w.owner && !(EndsNow(w, w', a) && w.owner[p] == a.tid) ::
               p in w'.owner && w'.owner[p] == w.owner[p])
    && (EndsNow(w, w', a) <==> (a.Abort? || Answers(w, a)))
  }

  lemma StepMoves(w: T.World, a: T.Action)
    requires T.Enabled(w, a)
    ensures Moves(w, a, T.Do(w, a))
  {
    match a
    case Advance(tid) => AdvanceMoves(w, tid);
    case _ =>
  }

  lemma AdvanceMoves(w: T.World, tid: TxId)
    requires T.Enabled(w, T.Advance(tid))
    ensures Moves(w, T.Advance(tid), T.Do(w, T.Advance(tid)))
  {
    match T.Statement(w.db, w.txs[tid])
    case Ends(_, _) => assert T.Do(w, T.Advance(tid)).owner == T.Released(w, tid).owner;
    case GoesOn(tx') => assert T.Do(w, T.Advance(tid)).txs == w.txs[tid := tx'];
  }

  /** A step of transaction `tid`, as far as locks are concerned: what it took, whether
      it ended the transaction, and what it answered. */
  ghost predicate Noted(t: Traced, tid: TxId, took: Option<Id>, ends: bool, answer: Option<Answer>, t': Traced) {
    && t'.grabs == t.grabs + (if took.Some? then [Grab(tid, took.value, |t.touched|)] else [])
    && t'.ended == (if ends then t.ended + {tid} else t.ended)
    && t'.answers == (if answer.Some? then t.answers[tid := answer.value] else t.answers)
    && (answer.Some? ==> ends && answer.value.at == |t.touched|)
    && |t.touched| <= |t'.touched| <= |t.touched| + 1 && t'.touched[..|t.touched|] == t.touched
    && (|t.touched| < |t'.touched| ==>
          forall p | p in t.world.owner && p in t'.touched[|t.touched|] :: ends && t.world.owner[p] == tid)
  }

  /** The same for the transactions that run and the locks they own. */
  ghost predicate Moved(t: Traced, tid: TxId, took: Option<Id>, ends: bool, t': Traced) {
    && (forall x | x in t.world.txs :: x in t'.world.txs || (ends && x == tid))
    && (forall x | x in t'.world.txs :: x in t.world.txs || x !in t.ended)
    && (ends ==> tid in t.world.txs && tid !in t'.world.txs)
    && (forall p | p in t.world.owner && !(ends && t.world.owner[p] == tid) ::
          p in t'.world.owner && t'.world.owner[p] == t.world.owner[p])
    && (took.Some? ==> !ends && tid in t'.world.txs && took.value !in t.world.owner
                       && took.value in t'.world.owner && t'.world.owner[took.value] == tid)
  }

  lemma GrabStays(t: Traced, tid: TxId, took: Option<Id>, ends: bool, answer: Option<Answer>, t': Traced, g: Grab)
    requires Noted(t, tid, took, ends, answer, t') && Moved(t, tid, took, ends, t')
    requires t.ended !! t.world.txs.Keys && t.answers.Keys <= t.ended && GrabOk(t, g)
    ensures GrabOk(t', g)
  {
    if g.tid in t'.world.txs {
      assert g.tid in t.world.txs && !(ends && g.tid == tid);
      forall k | g.since <= k < |t'.touched| ensures g.product !in t'.touched[k] {
        assert k < |t.touched| ==> t'.touched[k] == t.touched[k];
      }
    }
    forall at: nat | CommittedAt(t', g.tid, at) ensures g.since <= at && Quiet(t'.touched, g.product, g.since, at) {
      if answer.Some? && g.tid == tid {
        assert at == |t.touched|;
      } else {
        assert CommittedAt(t, g.tid, at);
      }
      forall k | g.since <= k < at ensures g.product !in t'.touched[k] {
        assert t'.touched[k] == t.touched[k];
      }
    }
  }

  lemma NewGrab(t: Traced, tid: TxId, p: Id, ends: bool, answer: Option<Answer>, t': Traced)
    requires Noted(t, tid, Some(p), ends, answer, t') && Moved(t, tid, Some(p), ends, t')
    requires t.answers.Keys <= t.ended && tid !in t.ended && |t'.touched| == |t.touched|
    ensures GrabOk(t', Grab(tid, p, |t.touched|))
  {
  }

  lemma PairStays(t: Traced, tid: TxId, took: Option<Id>, ends: bool, answer: Option<Answer>, t': Traced, g: Grab,
                  h: Grab)
    requires Noted(t, tid, took, ends, answer, t') && (ends ==> tid !in t.ended) && GrabsOrdered(t, g, h)
    ensures GrabsOrdered(t', g, h)
  {
    if g.product == h.product && g.tid != h.tid {
      forall at: nat | CommittedAt(t', g.tid, at) ensures at < h.since {
        assert CommittedAt(t, g.tid, at);
      }
    }
  }

  /** Whoever held a lock that is now taken has ended, and committed before. */
  lemma NewPair(t: Traced, tid: TxId, p: Id, ends: bool, answer: Option<Answer>, t': Traced, g: Grab)
    requires Noted(t, tid, Some(p), ends, answer, t') && Moved(t, tid, Some(p), ends, t') && GrabOk(t, g)
    requires forall x | x in t.answers :: AnswerOk(t.world.log, t.answers[x])
    requires |t.world.log| == |t.touched|
    ensures GrabsOrdered(t', g, Grab(tid, p, |t.touched|))
  {
    if g.product == p && g.tid != tid {
      forall at: nat | CommittedAt(t', g.tid, at) ensures at < |t.touched| {
        assert CommittedAt(t, g.tid, at) && AnswerOk(t.world.log, t.answers[g.tid]);
      }
    }
  }

  lemma LocksKeep(t: Traced, tid: TxId, took: Option<Id>, ends: bool, answer: Option<Answer>, t': Traced)
    requires Books(t) && Locks(t) && Noted(t, tid, took, ends, answer, t') && Moved(t, tid, took, ends, t')
    requires (ends || took.Some? ==> tid !in t.ended) && (took.Some? ==> |t'.touched| == |t.touched|)
    ensures Locks(t')
  {
    var n := |t.grabs|;
    forall i | 0 <= i < |t'.grabs| ensures GrabOk(t', t'.grabs[i]) {
      if i < n {
        assert t'.grabs[i] == t.grabs[i];
        GrabStays(t, tid, took, ends, answer, t', t.grabs[i]);
      } else {
        NewGrab(t, tid, took.value, ends, answer, t');
      }
    }
    forall i, j | 0 <= i < j < |t'.grabs| ensures GrabsOrdered(t', t'.grabs[i], t'.grabs[j]) {
      assert t'.grabs[i] == t.grabs[i];
      if j < n {
        assert t'.grabs[j] == t.grabs[j];
        PairStays(t, tid, took, ends, answer, t', t.grabs[i], t.grabs[j]);
      } else {
        NewPair(t, tid, took.value, ends, answer, t', t.grabs[i]);
      }
    }
  }

  /** The log only grows, so what was answered and touched stays as it was. */
  lemma AnswerStays(log: seq<Op>, log': seq<Op>, x: Answer)
    requires AnswerOk(log, x) && |log| <= |log'| && log'[..|log|] == log
    ensures AnswerOk(log', x)
  {
    assert log'[..x.at] == log[..x.at];
  }

  lemma TouchedStays(log: seq<Op>, log': seq<Op>, touched: seq<set<Id>>, touched': seq<set<Id>>, k: nat)
    requires |log| <= |log'| && log'[..|log|] == log && |touched| == |log| && |touched'| == |log'|
    requires touched'[..|touched|] == touched && k < |log| && TouchedOk(log, touched, k)
    ensures TouchedOk(log', touched', k)
  {
    assert log'[..k] == log[..k] && log'[k] == log[k] && touched'[k] == touched[k];
  }

  /** The log and its touched products grow together by at most one. */
  ghost predicate Appended(t: Traced, t': Traced) {
    var log, log' := t.world.log, t'.world.log;
    && |log| <= |log'| <= |log| + 1 && log'[..|log|] == log
    && |t.touched| == |log| && |t'.touched| == |log'| && t'.touched[..|t.touched|] == t.touched
    && (|log| < |log'| ==> t'.touched[|log|] == T.Touched(t.world.db, log'[|log|]))
  }

  lemma TouchedKeep(t: Traced, t': Traced)
    requires Books(t) && T.Serial(EMPTY, t.world) && Appended(t, t')
    ensures forall k | 0 <= k < |t'.touched| :: TouchedOk(t'.world.log, t'.touched, k)
  {
    forall k | 0 <= k < |t'.touched| ensures TouchedOk(t'.world.log, t'.touched, k) {
      if k < |t.touched| {
        TouchedStays(t.world.log, t'.world.log, t.touched, t'.touched, k);
      } else {
        assert t'.world.log[..k] == t.world.log;
      }
    }
  }

  lemma AnswersKeep(t: Traced, tid: TxId, answer: Option<Answer>, t': Traced)
    requires Books(t) && Appended(t, t')
    requires t'.answers == if answer.Some? then t.answers[tid := answer.value] else t.answers
    requires answer.Some? ==> AnswerOk(t'.world.log, answer.value)
    ensures forall x | x in t'.answers :: AnswerOk(t'.world.log, t'.answers[x])
  {
    forall x | x in t'.answers ensures AnswerOk(t'.world.log, t'.answers[x]) {
      if answer.None? || x != tid {
        AnswerStays(t.world.log, t'.world.log, t.answers[x]);
      }
    }
  }

  ghost function TidOf(a: T.Action): TxId {
    if a.Atomic? then 0 else a.tid
  }

  ghost function Answered(t: Traced, a: T.Action): Option<Answer> {
    if Answers(t.world, a) then Some(AnswerOf(t.world, a)) else None
  }

  lemma StepAppends(t: Traced, a: T.Action)
    requires T.WorldInv(t.world) && |t.touched| == |t.world.log| && Enabled(t, a)
    ensures Appended(t, Do(t, a))
  {
    StepLogs(t.world, a);
  }

  lemma StepNoted(t: Traced, a: T.Action)
    requires T.WorldInv(t.world) && |t.touched| == |t.world.log| && Enabled(t, a)
    ensures Noted(t, TidOf(a), Takes(t.world, a), a.Abort? || Answers(t.world, a), Answered(t, a), Do(t, a))
  {
    StepLogs(t.world, a);
    var t' := Do(t, a);
    if |t.touched| < |t'.touched| {
      StepLogsOnlyAtEnd(t.world, a);
    }
  }

  /** A transaction logs its operation with its last statement. */
  lemma StepLogsOnlyAtEnd(w: T.World, a: T.Action)
    requires T.Enabled(w, a) && T.Do(w, a).log != w.log
    ensures a.Atomic? || Answers(w, a)
  {
  }

  lemma StepMoved(t: Traced, a: T.Action)
    requires Enabled(t, a) && t.ended !! t.world.txs.Keys
    ensures Moved(t, TidOf(a), Takes(t.world, a), a.Abort? || Answers(t.world, a), Do(t, a))
  {
    StepMoves(t.world, a);
  }

  lemma StepKeeps(t: Traced, a: T.Action)
    requires Inv(t) && Enabled(t, a)
    ensures Inv(Do(t, a))
  {
    var t' := Do(t, a);
    T.StepKeeps(t.world, a, EMPTY);
    StepAppends(t, a);
    StepNoted(t, a);
    StepMoved(t, a);
    assert Answers(t.world, a) ==> AnswerOk(t'.world.log, AnswerOf(t.world, a)) by {
      if Answers(t.world, a) {
        AnswerIsAtomic(t.world, a);
      }
    }
    TouchedKeep(t, t');
    AnswersKeep(t, TidOf(a), Answered(t, a), t');
    LocksKeep(t, TidOf(a), Takes(t.world, a), a.Abort? || Answers(t.world, a), Answered(t, a), t');
  }

  // ─── All runs ───────────────────────────────────────────────────────────────

  ghost predicate Possible(t: Traced, actions: seq<T.Action>)
    decreases |actions|
  {
    actions == [] || (Enabled(t, actions[0]) && Possible(Do(t, actions[0]), actions[1..]))
  }

  ghost function After(t: Traced, actions: seq<T.Action>): Traced
    requires Possible(t, actions)
    decreases |actions|
  {
    if actions == [] then t else After(Do(t, actions[0]), actions[1..])
  }

  lemma {:induction false} RunKeeps(t: Traced, actions: seq<T.Action>)
    requires Inv(t) && Possible(t, actions)
    ensures Inv(After(t, actions))
    decreases |actions|
  {
    if actions != [] {
      StepKeeps(t, actions[0]);
      RunKeeps(Do(t, actions[0]), actions[1..]);
    }
  }

  /** The record is a record of a run of `Transactions`. */
  lemma {:induction false} SameWorld(t: Traced, actions: seq<T.Action>)
    requires Possible(t, actions)
    ensures T.Possible(t.world, actions) && T.After(t.world, actions) == After(t, actions).world
    decreases |actions|
  {
    if actions != [] {
      SameWorld(Do(t, actions[0]), actions[1..]);
    }
  }

  /** Locks order commits: of two transactions that lock a product and commit, the one
      that locked it first comes first in the serial order, and already did when the
      other got the lock. */
  lemma LockOrderIsSerialOrder(actions: seq<T.Action>, i: nat, j: nat)
    requires Possible(START, actions) && i < j < |After(START, actions).grabs|
    ensures var t := After(START, actions);
            var g, h := t.grabs[i], t.grabs[j];
            g.product == h.product && g.tid != h.tid ==>
              forall at: nat, at': nat | CommittedAt(t, g.tid, at) && CommittedAt(t, h.tid, at') :: at < h.since <= at'
  {
    RunKeeps(START, actions);
    var t := After(START, actions);
    assert GrabsOrdered(t, t.grabs[i], t.grabs[j]) && GrabOk(t, t.grabs[j]);
  }

  /** Nothing that conflicts comes between: from the lock to the commit, no operation
      in the serial order touches the locked product. */
  lemma NoConflictWhileLocked(actions: seq<T.Action>, i: nat, at: nat, k: nat)
    requires Possible(START, actions) && i < |After(START, actions).grabs|
    requires CommittedAt(After(START, actions), After(START, actions).grabs[i].tid, at)
    requires After(START, actions).grabs[i].since <= k < at
    ensures var t := After(START, actions);
            && k < |t.world.log| && AdmissibleRun(EMPTY, t.world.log[..k])
            && t.grabs[i].product !in T.Touched(Run(EMPTY, t.world.log[..k]), t.world.log[k])
  {
    RunKeeps(START, actions);
    var t := After(START, actions);
    assert GrabOk(t, t.grabs[i]) && TouchedOk(t.world.log, t.touched, k);
  }

  /** Every command that ended, committed or not, answered what its operation answers
      on the tables that the serial order has produced by then; if it committed, it
      is the next operation of that order. */
  lemma AnswersAreSerial(actions: seq<T.Action>, tid: TxId)
    requires Possible(START, actions) && tid in After(START, actions).answers
    ensures var t := After(START, actions);
            AnswerOk(t.world.log, t.answers[tid])
    ensures T.Serial(EMPTY, After(START, actions).world)
  {
    RunKeeps(START, actions);
  }
}
