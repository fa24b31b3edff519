/** The three queue consumers: what each does to its store or its output queue, and
    how it answers the broker. `System` builds its steps from the same functions. */
module Consumers {
  import opened Wrappers
  import G = GatewayDb
  import GatewayStore
  import S = SchedulerDb
  import SchedulerStore
  import opened System

  /** `Silent`: the consumer is shutting down and leaves the delivery unanswered. */
  datatype Answer = Ack | Drop | Requeue | Silent

  datatype TrackMessage = Garbled | UnknownAction | Request(request: S.Request)

  function TrackOutcome(sch: S.Db, m: TrackMessage, now: Time, newRow: Id): (S.Db, S.Outcome) {
    if !m.Request? then (sch, S.Invalid)
    else if m.request.setState then S.ApplySnapshot(sch, m.request, now, newRow)
    else S.EnqueueForce(sch, m.request)
  }

  /** The Scheduler acknowledges what it stored, drops what can never be stored, and
      asks for the rest again. */
  method HandleTrackRequest(store: SchedulerStore.Store, m: TrackMessage, now: Time, newRow: Id)
    returns (answer: Answer)
    modifies store
    ensures var (sch', outcome) := TrackOutcome(old(store.Tables()), m, now, newRow);
            && store.Tables() == sch'
            && answer == (match outcome case Committed => Ack case Invalid => Drop case DbError => Requeue)
    ensures answer != Ack ==> store.Tables() == old(store.Tables())
    ensures !m.Request? ==> answer == Drop
  {
    match m {
      case Garbled => return Drop;
      case UnknownAction => return Drop;
      case Request(request) =>
        var outcome;
        if request.setState {
          outcome := store.ApplySnapshot(request, now, newRow);
        } else {
          outcome := store.EnqueueForce(request);
        }
        if outcome == S.Invalid {
          return Drop;
        } else if outcome == S.DbError {
          return Requeue;
        }
        return Ack;
    }
  }

  /** The Gateway does the same with price results; `None` does not parse. */
  method HandlePriceResult(store: GatewayStore.Store, m: Option<G.PriceResult>) returns (answer: Answer)
    modifies store
    ensures m.None? ==> answer == Drop && store.Tables() == old(store.Tables())
    ensures m.Some? ==>
              var (gw', outcome) := G.ProcessPriceResult(old(store.Tables()), m.value);
              store.Tables() == gw'
              && answer == if outcome == G.Invalid then Drop
                           else if outcome == G.Committed || outcome == G.Unchanged then Ack else Requeue
    ensures answer != Ack ==> store.Tables() == old(store.Tables())
  {
    if m.None? {
      return Drop;
    }
    var outcome := store.ProcessPriceResult(m.value);
    if outcome == G.Invalid {
      return Drop;
    } else if outcome != G.Committed && outcome != G.Unchanged {
      return Requeue;
    }
    return Ack;
  }

  /** What a relay meets: whether it is being stopped at its three checks, and
      whether the broker takes the result. */
  datatype Relay = Relay(stopFirst: bool, stopAfterFetch: bool, publishOk: bool, stopAtEnd: bool)

  /** Delivered to the results queue: encodable, and confirmed by the broker. */
  predicate Takes(r: Relay, f: Fetch) {
    (f.Fetched? ==> f.price != G.NotFinite) && r.publishOk
  }

  /** The result tells what the page load yielded, and when. */
  predicate Tells(result: G.PriceResult, f: Fetch, at: Time) {
    && result.scrapedAt == Some(at) && (result.success <==> f.Fetched?)
    && match f
       case Failed(error) => result.error == error
       case Fetched(_, price, currency) => result.price == price && result.currency == currency && result.error == ""
  }

  /** The Extractor answers for a scraper task only with a result that carries its
      task id, and acknowledges it only after that result was taken. */
  method HandleScraper(m: Option<S.Task>, f: Fetch, at: Time, r: Relay)
    returns (published: Option<G.PriceResult>, answer: Answer)
    ensures published.Some? <==> m.Some? && !r.stopFirst && !r.stopAfterFetch && Takes(r, f)
    ensures published.Some? ==>
              var task, result := m.value, published.value;
              && result.task == G.Uuid(task.task) && result.product == G.Uuid(task.product) && result.lookup == G.Empty
              && result.force == task.force && result.name == "" && Tells(result, f, at)
              && result == ResultOf(task.task, G.Empty, G.Uuid(task.product), f, at, task.force)
    ensures answer.Ack? ==> published.Some?
    ensures answer.Drop? <==> m.None? && !r.stopFirst
    ensures answer.Requeue? ==> published.None? && !Takes(r, f)
    ensures answer.Silent? ==> r.stopFirst || r.stopAfterFetch || r.stopAtEnd
  {
    published, answer := None, Silent;
    if r.stopFirst {
      return;
    }
    if m.None? {
      return None, Drop;
    }
    if r.stopAfterFetch {
      return;
    }
    var task := m.value;
    var result := G.PriceResult(G.Uuid(task.task), G.Empty, G.Uuid(task.product), "", G.Finite(0), "", Some(at), false,
                                "", task.force);
    match f {
      case Failed(error) => result := result.(success := false, error := error);
      case Fetched(_, price, currency) => result := result.(success := true, price := price, currency := currency);
    }
    if !(Encodable(f) && r.publishOk) {
      return None, if r.stopAtEnd then Silent else Requeue;
    }
    return Some(result), if r.stopAtEnd then Silent else Ack;
  }

  /** Likewise for lookups, which also report the product's name. */
  method HandleLookup(m: Option<(Id, Id)>, f: Fetch, at: Time, r: Relay)
    returns (published: Option<G.PriceResult>, answer: Answer)
    ensures published.Some? <==> m.Some? && !r.stopFirst && !r.stopAfterFetch && Takes(r, f)
    ensures published.Some? ==>
              var (task, lookup) := m.value;
              var result := published.value;
              && result.task == G.Uuid(task) && result.lookup == G.Uuid(lookup) && result.product == G.Empty
              && !result.force && Tells(result, f, at) && result.name == (if f.Fetched? then f.name else "")
              && result == ResultOf(task, G.Uuid(lookup), G.Empty, f, at, false)
    ensures answer.Ack? ==> published.Some?
    ensures answer.Drop? <==> m.None? && !r.stopFirst
    ensures answer.Requeue? ==> published.None? && !Takes(r, f)
    ensures answer.Silent? ==> r.stopFirst || r.stopAfterFetch || r.stopAtEnd
  {
    published, answer := None, Silent;
    if r.stopFirst {
      return;
    }
    if m.None? {
      return None, Drop;
    }
    if r.stopAfterFetch {
      return;
    }
    var (task, lookup) := m.value;
    var result := G.PriceResult(G.Uuid(task), G.Uuid(lookup), G.Empty, "", G.Finite(0), "", Some(at), false, "", false);
    match f {
      case Failed(error) => result := result.(success := false, error := error);
      case Fetched(name, price, currency) =>
        result := result.(success := true, name := name, price := price, currency := currency);
    }
    if !(Encodable(f) && r.publishOk) {
      return None, if r.stopAtEnd then Silent else Requeue;
    }
    return Some(result), if r.stopAtEnd then Silent else Ack;
  }

  /** The queue after a consumer's answer; an answer may fail to reach the broker. */
  function Answered<T>(queue: multiset<T>, m: T, answer: Answer, reached: bool): multiset<T> {
    if (answer.Ack? || answer.Drop?) && reached then queue - multiset{m} else queue
  }

  /** A `HandleTrack` step is one delivery to the Scheduler's consumer. */
  lemma TrackStep(w: World, e: G.Event, now: Time, newRow: Id, reached: bool)
    requires IsTrack(e)
    ensures var (sch', outcome) := TrackOutcome(w.sch, Request(RequestOf(e)), now, newRow);
            var answer := (match outcome case Committed => Ack case Invalid => Drop case DbError => Requeue);
            var w' := HandleTracked(w, e, now, newRow, reached);
            w'.sch == sch' && w'.track == Answered(w.track, e, answer, reached)
  {
    var (sch', outcome) := TrackOutcome(w.sch, Request(RequestOf(e)), now, newRow);
    assert outcome != S.Committed ==> sch' == w.sch;
  }
}
