/** The bot's lookup functions as methods on its fields. Run without interference,
    each is a run of `BotLookup`, whose theorems then cover every interleaving. */
module LookupBot {
  import opened Wrappers
  import Sessions
  import opened BotLookup

  type Chat = Sessions.Chat

  /** What a handler cancels for. */
  function GoalOf(h: Handler): Goal {
    if h.Allocated? then ToSubmit(h.id) else ToClear
  }

  function CancelActions(chat: Chat): seq<Action> {
    [TakeActive(chat), SignalCancel(chat)]
  }

  function AwaitActions(chat: Chat): seq<Action> {
    [Allocate(chat)] + CancelActions(chat) + [ReadPage(chat), SetWaiting(chat)]
  }

  /** A submission with a free slot, and one without. */
  function SubmitActions(chat: Chat, free: bool): seq<Action> {
    AwaitActions(chat) + ([Launch(chat)] + if free then [] else [CompleteRefused(chat)])
  }

  datatype Found = Broken | Ready(name: string, url: string, price: int)

  function PollAction(id: TaskId, found: Found): Action {
    match found
    case Broken => PollFails(id)
    case Ready(name, url, price) => PollReady(id, name, url, price)
  }

  function FetchActions(id: TaskId, started: Option<nat>, found: Found): seq<Action> {
    if started.None? then [StartFails(id)] else [StartOk(id, started.value), PollAction(id, found)]
  }

  /** How a lookup goroutine goes: `started` is the Gateway's id, if it gave one. */
  function LookupActions(id: TaskId, started: Option<nat>, found: Found, alive: bool): seq<Action> {
    FetchActions(id, started, found) + (if alive then [Complete(id)] else []) + [ReleaseSlot(id), Forget(id)]
  }

  /** The dialog as a lookup leaves it: asking for the lowest price of the product found,
      or idle. The page of the product list is kept. */
  function Settled(started: Option<nat>, found: Found, page: int): Sessions.Session {
    if started.Some? && found.Ready? then
      Sessions.Session(Sessions.WaitingMinPrice, Sessions.Remote(started.value), found.name, found.url, found.price,
                       0, None, 0, 0, page)
    else IdleAt(page)
  }

  function IdleAt(page: int): Sessions.Session {
    Sessions.Session(Sessions.Step.Idle, Sessions.NoLookup, "", "", 0, 0, None, 0, 0, page)
  }

  function AwaitingAt(id: TaskId, page: int): Sessions.Session {
    Sessions.Session(Sessions.WaitingLookup, Sessions.Local(id), "", "", 0, 0, None, 0, 0, page)
  }

  /** A submission that finds no free slot: refused, and completed at once. */
  lemma RefusedSteps(s: State, chat: Chat, id: TaskId, page: int, s': State)
    requires chat in s.handlers && s.handlers[chat] == Submitted(id, page) && s.slots >= SLOTS
    requires s' == Finish(s, chat).(sessions := Sessions.Completed(s.sessions, chat, Sessions.Local(id),
                                                                   Sessions.EMPTY.(page := page)))
    ensures Leads(s, [Launch(chat), CompleteRefused(chat)], s')
  {
    var s1 := Do(s, Launch(chat));
    assert Drop(s1.handlers, chat) == s'.handlers;
    TwoSteps(s, Launch(chat), s1, CompleteRefused(chat), s');
  }

  /** Giving the slot back and forgetting the task. */
  lemma LeavingSteps(s: State, id: TaskId, s': State)
    requires id in s.tasks && s.tasks[id].phase.Returning? && s.slots > 0
    requires var chat := s.tasks[id].chat;
             s' == s.(slots := s.slots - 1, tasks := s.tasks[id := s.tasks[id].(phase := Ended)],
                      active := if chat in s.active && s.active[chat] == id then Drop(s.active, chat) else s.active)
    ensures Leads(s, [ReleaseSlot(id), Forget(id)], s')
  {
    TwoSteps(s, ReleaseSlot(id), Do(s, ReleaseSlot(id)), Forget(id), s');
  }

  class Bot {
    const store: Sessions.Store
    var activeLookups: map<Chat, TaskId>
    var slots: nat
    var tasks: map<TaskId, Task>
    var sequence: TaskId
    var stopping: bool
    /** Where the handler of each chat is. */
    ghost var handlers: map<Chat, Handler>

    constructor (store: Sessions.Store)
      ensures this.store == store && State() == START.(sessions := store.sessions)
    {
      this.store := store;
      activeLookups, slots, tasks, sequence, stopping, handlers := map[], 0, map[], 0, false, map[];
    }

    ghost function State(): State
      reads this, store
    {
      BotLookup.State(store.sessions, handlers, activeLookups, slots, tasks, sequence, stopping)
    }

    /** Removes and cancels the chat's active lookup, if there is one. */
    method CancelLookup(chat: Chat)
      requires Enabled(State(), TakeActive(chat))
      requires chat in activeLookups ==> activeLookups[chat] in tasks
      modifies this
      ensures Leads(old(State()), CancelActions(chat), State())
      ensures handlers == old(handlers)[chat := Cancelled(GoalOf(old(handlers)[chat]))]
      ensures chat !in activeLookups && tasks.Keys == old(tasks).Keys
      ensures chat in old(activeLookups) ==> tasks[old(activeLookups[chat])].cancelled
      ensures forall id | id in tasks && !(chat in old(activeLookups) && id == old(activeLookups[chat])) ::
                tasks[id] == old(tasks)[id]
      ensures slots == old(slots) && sequence == old(sequence) && stopping == old(stopping)
    {
      ghost var s := State();
      ghost var s1 := Do(s, TakeActive(chat));
      ghost var s2 := Do(s1, SignalCancel(chat));
      if chat in activeLookups {
        var id := activeLookups[chat];
        activeLookups := map c | c in activeLookups && c != chat :: activeLookups[c];
        tasks := tasks[id := tasks[id].(cancelled := true)];
      }
      handlers := handlers[chat := Cancelled(GoalOf(handlers[chat]))];
      assert activeLookups == s2.active && tasks == s2.tasks && handlers == s2.handlers;
      TwoSteps(s, TakeActive(chat), s1, SignalCancel(chat), s2);
    }

    /** `/start` and `/cancel`. */
    method HandleClear(chat: Chat)
      requires chat in handlers && handlers[chat] == Started(Update.ClearAll)
      requires chat in activeLookups ==> activeLookups[chat] in tasks
      modifies this, store
      ensures Leads(old(State()), CancelActions(chat) + [ClearSession(chat)], State())
      ensures chat !in store.sessions && chat !in activeLookups
      ensures forall c | c != chat :: (c in store.sessions <==> c in old(store.sessions))
                                      && (c in store.sessions ==> store.sessions[c] == old(store.sessions)[c])
    {
      ghost var s := State();
      CancelLookup(chat);
      LeadsOn(s, CancelActions(chat), State(), ClearSession(chat));
      store.Clear(chat);
      handlers := Drop(handlers, chat);
    }

    method DrawId(chat: Chat) returns (id: TaskId)
      requires chat in handlers && handlers[chat] == HaveIdle
      modifies this`sequence, this`handlers
      ensures id == old(sequence) && sequence == id + 1 && handlers == old(handlers)[chat := Allocated(id)]
      ensures Leads(old(State()), [Allocate(chat)], State())
    {
      ghost var s := State();
      id := sequence;
      sequence := sequence + 1;
      handlers := handlers[chat := Allocated(id)];
      OneStep(s, Allocate(chat), State());
    }

    /** Cancels the chat's lookup and makes the session wait on the new id. */
    method AwaitLookup(chat: Chat) returns (id: TaskId, page: int)
      requires chat in handlers && handlers[chat] == HaveIdle
      requires chat in activeLookups ==> activeLookups[chat] in tasks
      modifies this, store
      ensures id == old(sequence) && sequence == id + 1 && slots == old(slots) && chat !in activeLookups
      ensures page == old(if chat in store.sessions then store.sessions[chat].page else 0)
      ensures id !in old(tasks) ==> id !in tasks
      ensures handlers == old(handlers)[chat := Submitted(id, page)]
      ensures store.sessions == old(store.sessions)[chat := Waiting(id, page)]
      ensures Leads(old(State()), AwaitActions(chat), State())
    {
      ghost var s := State();
      id := Reserve(chat);
      ghost var s1 := State();
      page := Replace(chat, id);
      LeadsThen(s, [Allocate(chat)] + CancelActions(chat), s1, [ReadPage(chat), SetWaiting(chat)], State());
    }

    method Reserve(chat: Chat) returns (id: TaskId)
      requires chat in handlers && handlers[chat] == HaveIdle
      requires chat in activeLookups ==> activeLookups[chat] in tasks
      modifies this
      ensures id == old(sequence) && sequence == id + 1 && slots == old(slots) && chat !in activeLookups
      ensures tasks.Keys == old(tasks).Keys && handlers == old(handlers)[chat := Cancelled(ToSubmit(id))]
      ensures Leads(old(State()), [Allocate(chat)] + CancelActions(chat), State())
    {
      ghost var s := State();
      id := DrawId(chat);
      ghost var s1 := State();
      CancelLookup(chat);
      LeadsThen(s, [Allocate(chat)], s1, CancelActions(chat), State());
    }

    method Replace(chat: Chat, id: TaskId) returns (page: int)
      requires chat in handlers && handlers[chat] == Cancelled(ToSubmit(id))
      modifies this`handlers, store
      ensures page == old(if chat in store.sessions then store.sessions[chat].page else 0)
      ensures handlers == old(handlers)[chat := Submitted(id, page)]
      ensures store.sessions == old(store.sessions)[chat := Waiting(id, page)]
      ensures Leads(old(State()), [ReadPage(chat), SetWaiting(chat)], State())
    {
      ghost var s := State();
      var session := store.Get(chat);
      page := session.page;
      store.Set(chat, Some(Waiting(id, page)));
      handlers := handlers[chat := Submitted(id, page)];
      TwoSteps(s, ReadPage(chat), Do(s, ReadPage(chat)), SetWaiting(chat), State());
    }

    method LaunchLookup(chat: Chat, id: TaskId, page: int) returns (launched: bool)
      requires chat in handlers && handlers[chat] == Submitted(id, page)
      requires Sessions.WaitsOn(store.sessions, chat, Sessions.Local(id))
      modifies this, store
      ensures launched == (old(slots) < 8)
      ensures Leads(old(State()), [Launch(chat)] + if launched then [] else [CompleteRefused(chat)], State())
      ensures chat !in handlers
      ensures launched ==> Live(State(), chat, id) && store.sessions == old(store.sessions)
      ensures !launched ==>
                activeLookups == old(activeLookups)
                && store.sessions == old(store.sessions)[chat := IdleAt(old(store.sessions[chat].page))]
    {
      ghost var s := State();
      launched := slots < SLOTS;
      if launched {
        slots := slots + 1;
        activeLookups := activeLookups[chat := id];
        tasks := tasks[id := Task(chat, page, Starting, false)];
        handlers := Drop(handlers, chat);
        OneStep(s, Launch(chat), State());
        assert [Launch(chat)] + [] == [Launch(chat)];
      } else {
        var _ := store.CompleteLookup(chat, Sessions.Local(id), Sessions.EMPTY.(page := page));
        handlers := Drop(handlers, chat);
        RefusedSteps(s, chat, id, page, State());
      }
    }

    /** A link in an idle chat: replaces the chat's lookup by a new one, or gives up
        at once if eight are running. */
    method HandleURLSubmit(chat: Chat) returns (launched: bool)
      requires chat in handlers && handlers[chat] == HaveIdle && sequence !in tasks
      requires chat in activeLookups ==> activeLookups[chat] in tasks
      modifies this, store
      ensures launched == (old(slots) < 8)
      ensures Leads(old(State()), SubmitActions(chat, launched), State())
      ensures chat !in handlers
      ensures launched ==> Live(State(), chat, old(sequence))
      ensures !launched ==> chat !in activeLookups
      ensures var page := old(if chat in store.sessions then store.sessions[chat].page else 0);
              store.sessions == old(store.sessions)[chat := if launched then AwaitingAt(old(sequence), page)
                                                            else IdleAt(page)]
    {
      ghost var s := State();
      var id, page := AwaitLookup(chat);
      ghost var mid := State();
      launched := LaunchLookup(chat, id, page);
      LeadsThen(s, AwaitActions(chat), mid, [Launch(chat)] + if launched then [] else [CompleteRefused(chat)], State());
    }

    /** The goroutine of a lookup, from its start to its end. */
    method RunLookup(id: TaskId, started: Option<nat>, found: Found)
      requires id in tasks && tasks[id].phase.Starting? && slots > 0
      modifies this, store
      ensures Leads(old(State()), LookupActions(id, started, found, !old(tasks[id].cancelled || stopping)), State())
      ensures id in tasks && tasks[id].phase.Ended? && slots == old(slots) - 1
      ensures tasks[id].chat in activeLookups ==> activeLookups[tasks[id].chat] != id
      ensures var chat := old(tasks[id].chat);
              store.sessions ==
              if old(!tasks[id].cancelled && !stopping && Sessions.WaitsOn(store.sessions, chat, Sessions.Local(id)))
              then old(store.sessions)[chat := Settled(started, found, old(store.sessions[chat].page))]
              else old(store.sessions)
    {
      ghost var s := State();
      var alive := Fetch(id, started, found);
      ghost var s1 := State();
      ghost var done := FetchActions(id, started, found);
      if alive {
        var task := tasks[id];
        var _ := store.CompleteLookup(task.chat, Sessions.Local(id), task.phase.result);
        tasks := tasks[id := task.(phase := Returning)];
        OneStep(s1, Complete(id), State());
        LeadsThen(s, done, s1, [Complete(id)], State());
        done := done + [Complete(id)];
      }
      ghost var s2 := State();
      assert Leads(s, done, s2);
      Leave(id);
      LeadsThen(s, done, s2, [ReleaseSlot(id), Forget(id)], State());
      assert LookupActions(id, started, found, alive) == done + [ReleaseSlot(id), Forget(id)];
    }

    /** Asks the Gateway; afterwards the task is about to complete, or gives up. */
    method Fetch(id: TaskId, started: Option<nat>, found: Found) returns (alive: bool)
      requires id in tasks && tasks[id].phase.Starting?
      modifies this`tasks
      ensures alive == !old(tasks[id].cancelled || stopping)
      ensures Leads(old(State()), FetchActions(id, started, found), State())
      ensures id in tasks && tasks == old(tasks)[id := tasks[id]]
      ensures tasks[id].phase.Finishing? == alive && tasks[id].phase.Returning? == !alive
      ensures alive ==> forall page :: tasks[id].phase.result.(page := page) == Settled(started, found, page)
      ensures tasks[id].chat == old(tasks[id].chat) && tasks[id].cancelled == old(tasks[id].cancelled)
    {
      ghost var s := State();
      var task := tasks[id];
      alive := !(task.cancelled || stopping);
      if started.None? {
        var result := Sessions.EMPTY.(page := task.page);
        tasks := tasks[id := task.(phase := if alive then Finishing(result) else Returning)];
        OneStep(s, StartFails(id), State());
        return;
      }
      var result := Sessions.EMPTY;
      match found {
        case Broken =>
        case Ready(name, url, price) =>
          result := Sessions.EMPTY.(step := Sessions.WaitingMinPrice, lookup := Sessions.Remote(started.value),
                                    productName := name, productUrl := url, currentPrice := price);
      }
      tasks := tasks[id := task.(phase := if alive then Finishing(result) else Returning)];
      ghost var s1 := Do(s, StartOk(id, started.value));
      assert s1.tasks[id := tasks[id]] == tasks;
      TwoSteps(s, StartOk(id, started.value), s1, PollAction(id, found), State());
    }

    /** Gives the slot back and forgets the task, unless a newer one took its place. */
    method Leave(id: TaskId)
      requires id in tasks && tasks[id].phase.Returning? && slots > 0
      modifies this
      ensures Leads(old(State()), [ReleaseSlot(id), Forget(id)], State())
      ensures id in tasks && tasks[id].phase.Ended? && slots == old(slots) - 1
      ensures tasks[id].chat in activeLookups ==> activeLookups[tasks[id].chat] != id
    {
      ghost var s := State();
      slots := slots - 1;
      tasks := tasks[id := tasks[id].(phase := Released)];
      var chat := tasks[id].chat;
      if chat in activeLookups && activeLookups[chat] == id {
        activeLookups := Drop(activeLookups, chat);
      }
      tasks := tasks[id := tasks[id].(phase := Ended)];
      LeavingSteps(s, id, State());
    }
  }
}
