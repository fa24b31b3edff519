/** Sending one notification to Telegram with bounded retries. Times are in seconds. */
module Telegram {
  import opened Wrappers

  type Time = int

  const DELAYS: seq<Time> := [0, 3, 6, 12]
  const LONGEST_WAIT: Time := 30

  /** `after`: the delay Telegram asks for; 0 for failures that name none. */
  datatype Reply = Accepted | Rejected | Transient(after: int)

  datatype Exchange = Exchange(reply: Reply, took: nat)

  datatype Outcome = Sent | PermanentError | RetryError(after: int) | Cancelled

  function Max(a: int, b: int): int {
    if a > b then a else b
  }

  predicate Retryable(reply: Reply) {
    reply.Transient? && reply.after <= LONGEST_WAIT
  }

  predicate CancelledBy(cancelAt: Option<Time>, now: Time) {
    cancelAt.Some? && cancelAt.value <= now
  }

  method Wait(cancelAt: Option<Time>, now: Time, delay: Time) returns (end: Time, ok: bool)
    ensures ok <==> !CancelledBy(cancelAt, Max(now, now + delay))
    ensures now <= end && (ok ==> end == Max(now, now + delay)) && (!ok ==> CancelledBy(cancelAt, end))
  {
    if CancelledBy(cancelAt, now) {
      return now, false;
    }
    if delay <= 0 {
      return now, true;
    }
    if CancelledBy(cancelAt, now + delay) {
      return cancelAt.value, false;
    }
    return now + delay, true;
  }

  /** When the reply to request `k` came. */
  function Answered(starts: seq<Time>, exchanges: seq<Exchange>, k: nat): Time
    requires k < |starts| <= |exchanges|
  {
    starts[k] + exchanges[k].took
  }

  /** Each request follows a retryable reply, by the longer of the fixed delay and
      the delay that reply asked for. */
  predicate WellSpaced(starts: seq<Time>, exchanges: seq<Exchange>)
    requires |starts| <= |exchanges| && |starts| <= 4
  {
    forall k | 0 <= k && k + 1 < |starts| ::
      && exchanges[k].reply.Transient? && exchanges[k].reply.after <= 30
      && starts[k + 1] == Answered(starts, exchanges, k) + Max([0, 3, 6, 12][k + 1], exchanges[k].reply.after)
  }

  lemma StartAppended(starts: seq<Time>, exchanges: seq<Exchange>, at: Time)
    requires |starts| < |exchanges| && |starts| < |DELAYS| && WellSpaced(starts, exchanges)
    requires starts != [] ==>
               var k := |starts| - 1;
               && Retryable(exchanges[k].reply)
               && at == Answered(starts, exchanges, k) + Max(DELAYS[k + 1], exchanges[k].reply.after)
    ensures WellSpaced(starts + [at], exchanges)
    ensures Answered(starts + [at], exchanges, |starts|) == at + exchanges[|starts|].took
  {
    var more := starts + [at];
    forall k | 0 <= k && k + 1 < |more|
      ensures Retryable(exchanges[k].reply)
      ensures more[k + 1] == Answered(more, exchanges, k) + Max(DELAYS[k + 1], exchanges[k].reply.after)
    {
      assert more[k] == starts[k];
      if k + 1 < |starts| {
        assert starts[k + 1] == Answered(starts, exchanges, k) + Max(DELAYS[k + 1], exchanges[k].reply.after);
      }
    }
  }

  /** `exchanges`: how Telegram would answer each request. */
  method Send(now: Time, cancelAt: Option<Time>, exchanges: seq<Exchange>)
    returns (outcome: Outcome, starts: seq<Time>, end: Time)
    requires |exchanges| == |DELAYS|
    ensures |starts| <= 4 && WellSpaced(starts, exchanges)
    ensures starts != [] ==> starts[0] == now
    ensures outcome.Cancelled? ==> CancelledBy(cancelAt, end) && now <= end
    ensures outcome.Cancelled? && starts != [] ==>
              Retryable(exchanges[|starts| - 1].reply) && Answered(starts, exchanges, |starts| - 1) <= end
    ensures !outcome.Cancelled? ==> starts != [] && end == Answered(starts, exchanges, |starts| - 1)
    ensures outcome.Sent? ==> exchanges[|starts| - 1].reply.Accepted?
    ensures outcome.PermanentError? ==> exchanges[|starts| - 1].reply.Rejected?
    ensures outcome.RetryError? ==>
              && exchanges[|starts| - 1].reply == Transient(outcome.after)
              && (outcome.after > 30 || |starts| == 4)
  {
    starts, end, outcome := [], now, Cancelled;
    var attempt := 0;
    while attempt < |DELAYS|
      invariant 0 <= attempt <= |DELAYS| && |starts| == attempt && WellSpaced(starts, exchanges)
      invariant now <= end && (starts != [] ==> starts[0] == now) && (attempt == 0 ==> end == now)
      invariant attempt > 0 ==> outcome.RetryError? && exchanges[attempt - 1].reply == Transient(outcome.after)
      invariant attempt > 0 ==> Retryable(exchanges[attempt - 1].reply)
      invariant attempt == |DELAYS| ==> end == Answered(starts, exchanges, attempt - 1)
      invariant 0 < attempt < |DELAYS| ==>
                  end == Answered(starts, exchanges, attempt - 1) +
                         Max(0, exchanges[attempt - 1].reply.after - DELAYS[attempt])
    {
      var ok;
      end, ok := Wait(cancelAt, end, DELAYS[attempt]);
      if !ok {
        return Cancelled, starts, end;
      }
      StartAppended(starts, exchanges, end);
      starts := starts + [end];
      end := end + exchanges[attempt].took;
      match exchanges[attempt].reply {
        case Accepted => return Sent, starts, end;
        case Rejected => return PermanentError, starts, end;
        case Transient(after) =>
          outcome := RetryError(after);
          if after > LONGEST_WAIT {
            return outcome, starts, end;
          }
          if after > 0 && attempt < |DELAYS| - 1 {
            var next := DELAYS[attempt + 1];
            if after > next {
              end, ok := Wait(cancelAt, end, after - next);
              if !ok {
                return Cancelled, starts, end;
              }
            }
          }
      }
      attempt := attempt + 1;
    }
  }
}
