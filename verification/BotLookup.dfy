/** Product lookups in the bot: the handlers of each chat, one at a time, and the
    lookup goroutines they start, interleaved one critical section at a time. */
module BotLookup {
  import opened Wrappers
  import opened Sessions

  type TaskId = nat

  const SLOTS: nat := 8

  /** Where a lookup goroutine is. `Finishing`: it saw its context alive and is about
      to complete the session. */
  datatype Phase = Starting | Polling(remote: nat) | Finishing(result: Session) | Returning | Released | Ended

  datatype Task = Task(chat: Chat, page: int, phase: Phase, cancelled: bool)

  datatype Update = ClearAll | ShowList | EditSub(sub: nat) | Text(isLink: bool) | Other

  datatype Goal = ToClear | ToSubmit(id: TaskId)

  /** Where the handler of a chat is. `Taken`: it removed the active lookup, if any,
      and has yet to cancel it. */
  datatype Handler =
    | Started(update: Update)
    | HaveIdle
    | Allocated(id: TaskId)
    | Taken(task: Option<TaskId>, goal: Goal)
    | Cancelled(goal: Goal)
    | HavePage(id: TaskId, page: int)
    | Submitted(id: TaskId, page: int)
    | Refused(id: TaskId, page: int)
    | HaveSession(session: Session)
    | EditPage(sub: nat, page: int)

  datatype State = State(sessions: map<Chat, Session>, handlers: map<Chat, Handler>, active: map<Chat, TaskId>,
                         slots: nat, tasks: map<TaskId, Task>, nextId: TaskId, shutdown: bool)

  datatype Action =
    // handlers
    | Receive(chat: Chat, update: Update)
    | Abort(chat: Chat)
    | SavePage(chat: Chat, page: int, last: bool)
    | ReadPageForEdit(chat: Chat)
    | SetEditing(chat: Chat, oldMin: int, oldMax: int)
    | ReadSession(chat: Chat)
    | Answer(chat: Chat, entered: Option<int>, accepted: bool)
    | Allocate(chat: Chat)
    | TakeActive(chat: Chat)
    | SignalCancel(chat: Chat)
    | ClearSession(chat: Chat)
    | ReadPage(chat: Chat)
    | SetWaiting(chat: Chat)
    | Launch(chat: Chat)
    | CompleteRefused(chat: Chat)
    // goroutines
    | StartFails(id: TaskId)
    | StartOk(id: TaskId, remote: nat)
    | PollFails(id: TaskId)
    | PollReady(id: TaskId, name: string, url: string, price: int)
    | Complete(id: TaskId)
    | ReleaseSlot(id: TaskId)
    | Forget(id: TaskId)
    | Shutdown

  predicate Handling(s: State, chat: Chat) {
    chat in s.handlers
  }

  predicate Dead(s: State, id: TaskId)
    requires id in s.tasks
  {
    s.tasks[id].cancelled || s.shutdown
  }

  predicate Dialog(step: Step) {
    step == WaitingMinPrice || step == WaitingMaxPrice || step == EditingMinPrice || step == EditingMaxPrice
  }

  predicate Enabled(s: State, a: Action) {
    match a
    case Receive(chat, _) => !Handling(s, chat)
    case Abort(chat) =>
      Handling(s, chat) && var h := s.handlers[chat];
      h.HaveSession? || (h.Started? && !h.update.ClearAll? && !h.update.Text?)
    case SavePage(chat, _, _) => Handling(s, chat) && s.handlers[chat] == Started(ShowList)
    case ReadPageForEdit(chat) => Handling(s, chat) && s.handlers[chat].Started? && s.handlers[chat].update.EditSub?
    case SetEditing(chat, _, _) => Handling(s, chat) && s.handlers[chat].EditPage?
    case ReadSession(chat) => Handling(s, chat) && s.handlers[chat].Started? && s.handlers[chat].update.Text?
    case Answer(chat, _, _) => Handling(s, chat) && s.handlers[chat].HaveSession?
    case Allocate(chat) => Handling(s, chat) && s.handlers[chat].HaveIdle?
    case TakeActive(chat) =>
      Handling(s, chat) && (s.handlers[chat] == Started(ClearAll) || s.handlers[chat].Allocated?)
    case SignalCancel(chat) => Handling(s, chat) && s.handlers[chat].Taken?
    case ClearSession(chat) => Handling(s, chat) && s.handlers[chat] == Cancelled(ToClear)
    case ReadPage(chat) => Handling(s, chat) && s.handlers[chat].Cancelled? && s.handlers[chat].goal.ToSubmit?
    case SetWaiting(chat) => Handling(s, chat) && s.handlers[chat].HavePage?
    case Launch(chat) => Handling(s, chat) && s.handlers[chat].Submitted?
    case CompleteRefused(chat) => Handling(s, chat) && s.handlers[chat].Refused?
    case StartFails(id) => id in s.tasks && s.tasks[id].phase.Starting?
    case StartOk(id, _) => id in s.tasks && s.tasks[id].phase.Starting?
    case PollFails(id) => id in s.tasks && s.tasks[id].phase.Polling?
    case PollReady(id, _, _, _) => id in s.tasks && s.tasks[id].phase.Polling?
    case Complete(id) => id in s.tasks && s.tasks[id].phase.Finishing?
    case ReleaseSlot(id) => id in s.tasks && s.tasks[id].phase.Returning? && s.slots > 0
    case Forget(id) => id in s.tasks && s.tasks[id].phase.Released?
    case Shutdown => true
  }

  function Drop<V>(m: map<Chat, V>, chat: Chat): map<Chat, V> {
    map c | c in m && c != chat :: m[c]
  }

  function At(s: State, chat: Chat, h: Handler): State {
    s.(handlers := s.handlers[chat := h])
  }

  function Finish(s: State, chat: Chat): State {
    s.(handlers := Drop(s.handlers, chat))
  }

  /** What a dialog answer makes of the session the handler read, if anything. */
  function NextSession(sess: Session, price: int, accepted: bool): Option<Session> {
    match sess.step
    case WaitingMinPrice => Some(sess.(minPrice := price, step := WaitingMaxPrice))
    case EditingMinPrice => Some(sess.(minPrice := price, step := EditingMaxPrice))
    case WaitingMaxPrice => if price <= sess.minPrice || !accepted then None else Some(EMPTY.(page := sess.page))
    case EditingMaxPrice => if price <= sess.minPrice || !accepted then None else Some(EMPTY.(page := sess.page))
    case _ => None
  }

  function Waiting(id: TaskId, page: int): Session {
    EMPTY.(step := WaitingLookup, lookup := Local(id), page := page)
  }

  function CancelIn(tasks: map<TaskId, Task>, task: Option<TaskId>): map<TaskId, Task> {
    if task.Some? && task.value in tasks then tasks[task.value := tasks[task.value].(cancelled := true)] else tasks
  }

  function InPhase(s: State, id: TaskId, phase: Phase): State
    requires id in s.tasks
  {
    s.(tasks := s.tasks[id := s.tasks[id].(phase := phase)])
  }

  /** The goroutine goes on to complete the session unless its context is done. */
  function FinishWith(s: State, id: TaskId, result: Session): State
    requires id in s.tasks
  {
    InPhase(s, id, if Dead(s, id) then Returning else Finishing(result))
  }

  function Do(s: State, a: Action): State
    requires Enabled(s, a)
  {
    match a
    case Receive(chat, update) => At(s, chat, Started(update))
    case Abort(chat) => Finish(s, chat)
    case SavePage(chat, page, last) =>
      var s' := s.(sessions := Stored(s.sessions, chat, Current(s.sessions, chat).(page := page)));
      if last then Finish(s', chat) else s'
    case ReadPageForEdit(chat) => At(s, chat, EditPage(s.handlers[chat].update.sub, Current(s.sessions, chat).page))
    case SetEditing(chat, oldMin, oldMax) =>
      var h := s.handlers[chat];
      var next := EMPTY.(step := EditingMinPrice, editing := Some(h.sub), oldMin := oldMin, oldMax := oldMax,
                              page := h.page);
      Finish(s.(sessions := s.sessions[chat := next]), chat)
    case ReadSession(chat) =>
      var sess := Current(s.sessions, chat);
      if sess.step == Idle then if s.handlers[chat].update.isLink then At(s, chat, HaveIdle) else Finish(s, chat)
      else if sess.step == WaitingLookup then Finish(s, chat)
      else At(s, chat, HaveSession(sess))
    case Answer(chat, entered, accepted) =>
      var next := if entered.Some? then NextSession(s.handlers[chat].session, entered.value, accepted) else None;
      Finish(if next.Some? then s.(sessions := s.sessions[chat := next.value]) else s, chat)
    case Allocate(chat) => At(s, chat, Allocated(s.nextId)).(nextId := s.nextId + 1)
    case TakeActive(chat) =>
      var goal := if s.handlers[chat].Allocated? then ToSubmit(s.handlers[chat].id) else ToClear;
      At(s, chat, Taken(if chat in s.active then Some(s.active[chat]) else None, goal)).(active := Drop(s.active, chat))
    case SignalCancel(chat) =>
      var h := s.handlers[chat];
      At(s, chat, Cancelled(h.goal)).(tasks := CancelIn(s.tasks, h.task))
    case ClearSession(chat) => Finish(s.(sessions := Sessions.Without(s.sessions, chat)), chat)
    case ReadPage(chat) => At(s, chat, HavePage(s.handlers[chat].goal.id, Current(s.sessions, chat).page))
    case SetWaiting(chat) =>
      var h := s.handlers[chat];
      At(s.(sessions := s.sessions[chat := Waiting(h.id, h.page)]), chat, Submitted(h.id, h.page))
    case Launch(chat) =>
      var h := s.handlers[chat];
      if s.slots < SLOTS then
        Finish(s, chat).(slots := s.slots + 1, active := s.active[chat := h.id],
                         tasks := s.tasks[h.id := Task(chat, h.page, Starting, false)])
      else At(s, chat, Refused(h.id, h.page))
    case CompleteRefused(chat) =>
      var h := s.handlers[chat];
      Finish(s.(sessions := Completed(s.sessions, chat, Local(h.id), EMPTY.(page := h.page))), chat)
    case StartFails(id) => FinishWith(s, id, EMPTY.(page := s.tasks[id].page))
    case StartOk(id, remote) => InPhase(s, id, Polling(remote))
    case PollFails(id) => FinishWith(s, id, EMPTY)
    case PollReady(id, name, url, price) =>
      FinishWith(s, id, EMPTY.(step := WaitingMinPrice, lookup := Remote(s.tasks[id].phase.remote), productName := name,
                               productUrl := url, currentPrice := price))
    case Complete(id) =>
      var t := s.tasks[id];
      InPhase(s, id, Returning).(sessions := Completed(s.sessions, t.chat, Local(id), t.phase.result))
    case ReleaseSlot(id) => InPhase(s, id, Released).(slots := s.slots - 1)
    case Forget(id) =>
      var chat := s.tasks[id].chat;
      var s' := InPhase(s, id, Ended);
      if chat in s.active && s.active[chat] == id then s'.(active := Drop(s.active, chat)) else s'
    case Shutdown => s.(shutdown := true)
  }

  // ─── Slots ──────────────────────────────────────────────────────────────────

  predicate UsesSlot(t: Task) {
    t.phase.Starting? || t.phase.Polling? || t.phase.Finishing? || t.phase.Returning?
  }

  function SlotUsers(tasks: map<TaskId, Task>): set<TaskId> {
    set id | id in tasks && UsesSlot(tasks[id])
  }

  predicate SlotsOk(s: State) {
    |SlotUsers(s.tasks)| == s.slots <= SLOTS
  }

  // ─── Who waits on what ──────────────────────────────────────────────────────

  /** The lookup will come back to the session. */
  predicate Live(s: State, chat: Chat, id: TaskId) {
    && id in s.tasks && s.tasks[id].chat == chat && !s.tasks[id].cancelled
    && (s.tasks[id].phase.Starting? || s.tasks[id].phase.Polling? || s.tasks[id].phase.Finishing?)
    && chat in s.active && s.active[chat] == id
  }

  /** The id a handler has taken for a lookup it has yet to launch. */
  function Reserved(h: Handler): Option<TaskId> {
    match h
    case Allocated(id) => Some(id)
    case Taken(_, ToSubmit(id)) => Some(id)
    case Cancelled(ToSubmit(id)) => Some(id)
    case HavePage(id, _) => Some(id)
    case Submitted(id, _) => Some(id)
    case Refused(id, _) => Some(id)
    case _ => None
  }

  /** Between cancelling the old lookup and replacing the session. */
  predicate Replacing(h: Handler) {
    h.Taken? || h.Cancelled? || h.HavePage?
  }

  /** The chat's own lookup, not cancelled; until the shutdown it is live. */
  predicate Serves(s: State, chat: Chat, id: TaskId) {
    && id in s.tasks && s.tasks[id].chat == chat && !s.tasks[id].cancelled
    && (!s.shutdown ==> Live(s, chat, id))
  }

  /** What a chat may wait on. Only a handler that is replacing the session may leave
      it waiting on a cancelled lookup. */
  predicate WaitOk(s: State, chat: Chat, id: TaskId) {
    if chat !in s.handlers then Serves(s, chat, id)
    else
      match s.handlers[chat]
      case Submitted(n, _) => n == id
      case Refused(n, _) => n == id
      case h => if Replacing(h) then id in s.tasks && s.tasks[id].chat == chat else Serves(s, chat, id)
  }

  ghost predicate WaitersOk(s: State) {
    forall chat, id | WaitsOn(s.sessions, chat, Local(id)) :: WaitOk(s, chat, id)
  }

  // ─── Tasks ──────────────────────────────────────────────────────────────────

  /** A lookup that was neither cancelled nor forgotten is the chat's active one, or
      its handler is about to cancel it. */
  predicate Tracked(s: State, id: TaskId)
    requires id in s.tasks
  {
    var c := s.tasks[id].chat;
    s.tasks[id].cancelled || s.tasks[id].phase.Ended? || (c in s.active && s.active[c] == id)
    || (c in s.handlers && s.handlers[c].Taken? && s.handlers[c].task == Some(id))
  }

  ghost predicate TasksOk(s: State) {
    && (forall id | id in s.tasks :: id < s.nextId && Tracked(s, id))
    && (forall id | id in s.tasks && s.tasks[id].phase.Finishing? :: s.tasks[id].phase.result.step != WaitingLookup)
    && (forall c | c in s.active :: s.active[c] in s.tasks && s.tasks[s.active[c]].chat == c)
  }

  /** A handler that has taken the active lookup leaves none behind. */
  predicate HandlerOk(s: State, c: Chat)
    requires c in s.handlers
  {
    var h := s.handlers[c];
    && (Reserved(h).Some? ==> Reserved(h).value < s.nextId && Reserved(h).value !in s.tasks)
    && (Replacing(h) || h.Submitted? || h.Refused? ==> c !in s.active)
    && (h.Taken? && h.task.Some? ==> h.task.value in s.tasks && s.tasks[h.task.value].chat == c)
    && (h.HaveSession? ==> Dialog(h.session.step))
  }

  ghost predicate HandlersOk(s: State) {
    && (forall c | c in s.handlers :: HandlerOk(s, c))
    && forall c, d | c in s.handlers && d in s.handlers && c != d && Reserved(s.handlers[c]).Some? ::
         Reserved(s.handlers[c]) != Reserved(s.handlers[d])
  }

  /** Waiting sessions wait on ids already handed out. */
  ghost predicate Inv(s: State) {
    SlotsOk(s) && TasksOk(s) && HandlersOk(s) && WaitersOk(s)
  }

  // ─── Slots ──────────────────────────────────────────────────────────────────

  lemma PhaseUsers(tasks: map<TaskId, Task>, id: TaskId, t: Task)
    ensures SlotUsers(tasks[id := t]) == if UsesSlot(t) then SlotUsers(tasks) + {id} else SlotUsers(tasks) - {id}
    ensures id in tasks && UsesSlot(t) == UsesSlot(tasks[id]) ==> SlotUsers(tasks[id := t]) == SlotUsers(tasks)
  {
    assert SlotUsers(tasks[id := t]) == if UsesSlot(t) then SlotUsers(tasks) + {id} else SlotUsers(tasks) - {id};
  }

  function Weight(tasks: map<TaskId, Task>, id: TaskId): nat {
    if id in tasks && UsesSlot(tasks[id]) then 1 else 0
  }

  lemma TaskKeepsSlots(s: State, id: TaskId, s': State)
    requires SlotsOk(s) && id in s'.tasks && s'.tasks == s.tasks[id := s'.tasks[id]]
    requires s'.slots == s.slots - Weight(s.tasks, id) + Weight(s'.tasks, id) && s'.slots <= SLOTS
    ensures SlotsOk(s')
  {
    PhaseUsers(s.tasks, id, s'.tasks[id]);
    if Weight(s.tasks, id) == 1 {
      assert id in SlotUsers(s.tasks);
    }
  }

  /** The task an action touches. */
  function TaskOf(s: State, a: Action): Option<TaskId>
    requires Enabled(s, a)
  {
    match a
    case StartFails(id) => Some(id)
    case StartOk(id, _) => Some(id)
    case PollFails(id) => Some(id)
    case PollReady(id, _, _, _) => Some(id)
    case Complete(id) => Some(id)
    case ReleaseSlot(id) => Some(id)
    case Forget(id) => Some(id)
    case SignalCancel(chat) =>
      if s.handlers[chat].task.Some? && s.handlers[chat].task.value in s.tasks then s.handlers[chat].task else None
    case Launch(chat) => if s.slots < SLOTS then Some(s.handlers[chat].id) else None
    case _ => None
  }

  lemma SlotsKeep(s: State, a: Action)
    requires SlotsOk(s) && Enabled(s, a)
    requires a.Launch? ==> s.handlers[a.chat].id !in s.tasks
    ensures SlotsOk(Do(s, a))
  {
    if TaskOf(s, a).Some? {
      TaskKeepsSlots(s, TaskOf(s, a).value, Do(s, a));
    } else {
      assert Do(s, a).tasks == s.tasks && Do(s, a).slots == s.slots;
    }
  }

  predicate ByTask(a: Action) {
    a.StartFails? || a.StartOk? || a.PollFails? || a.PollReady? || a.Complete? || a.ReleaseSlot? || a.Forget?
  }

  // ─── Steps of a goroutine ───────────────────────────────────────────────────

  /** What a step of goroutine `id` may change. */
  ghost predicate TaskStep(s: State, id: TaskId, s': State) {
    && id in s.tasks && id in s'.tasks && s'.tasks == s.tasks[id := s'.tasks[id]] && !s.tasks[id].phase.Ended?
    && s'.tasks[id].chat == s.tasks[id].chat && s'.tasks[id].cancelled == s.tasks[id].cancelled
    && s'.handlers == s.handlers && s'.nextId == s.nextId && s'.shutdown == s.shutdown
    && (s'.tasks[id].phase.Finishing? ==> s'.tasks[id].phase.result.step != WaitingLookup)
    && (s'.active == s.active
        || (s'.tasks[id].phase.Ended? && s.tasks[id].chat in s.active && s.active[s.tasks[id].chat] == id
            && s'.active == Drop(s.active, s.tasks[id].chat)))
  }

  lemma ByTaskIsTaskStep(s: State, a: Action)
    requires Enabled(s, a) && ByTask(a)
    ensures TaskStep(s, a.id, Do(s, a))
  {
    match a {
      case ReleaseSlot(_) => LeavingIsTaskStep(s, a);
      case Forget(_) => LeavingIsTaskStep(s, a);
      case _ =>
    }
  }

  lemma LeavingIsTaskStep(s: State, a: Action)
    requires Enabled(s, a) && (a.ReleaseSlot? || a.Forget?)
    ensures TaskStep(s, a.id, Do(s, a))
  {
  }

  lemma TaskKeepsTasks(s: State, id: TaskId, s': State)
    requires TasksOk(s) && TaskStep(s, id, s')
    ensures TasksOk(s')
  {
    forall x | x in s'.tasks ensures x < s'.nextId && Tracked(s', x) {
      assert Tracked(s, x);
    }
  }

  lemma TaskKeepsHandlers(s: State, id: TaskId, s': State)
    requires HandlersOk(s) && TaskStep(s, id, s')
    ensures HandlersOk(s')
  {
    forall c | c in s'.handlers ensures HandlerOk(s', c) {
      assert HandlerOk(s, c);
    }
  }

  /** How a goroutine's step relates to its chat's session. */
  ghost predicate SessionStep(s: State, id: TaskId, s': State)
    requires id in s.tasks && id in s'.tasks
  {
    var c := s.tasks[id].chat;
    (s'.sessions == s.sessions
     && (!Dead(s, id) && (s.tasks[id].phase.Starting? || s.tasks[id].phase.Polling?) ==>
           s'.tasks[id].phase.Polling? || s'.tasks[id].phase.Finishing?)
     && (!Dead(s, id) ==> !s.tasks[id].phase.Finishing?))
    || (s.tasks[id].phase.Finishing? && s'.sessions == Completed(s.sessions, c, Local(id), s.tasks[id].phase.result))
  }

  lemma ByTaskIsSessionStep(s: State, a: Action)
    requires Enabled(s, a) && ByTask(a)
    ensures a.id in Do(s, a).tasks && SessionStep(s, a.id, Do(s, a))
  {
  }

  lemma TaskKeepsWaiters(s: State, id: TaskId, s': State)
    requires TasksOk(s) && WaitersOk(s) && TaskStep(s, id, s') && SessionStep(s, id, s')
    ensures WaitersOk(s')
  {
    forall c, n | WaitsOn(s'.sessions, c, Local(n)) ensures WaitOk(s', c, n) {
      assert WaitsOn(s.sessions, c, Local(n));
      assert WaitOk(s, c, n);
    }
  }

  // ─── Steps of a handler ─────────────────────────────────────────────────────

  /** At most the task that the handler has taken is cancelled. */
  ghost predicate CancelsTaken(s: State, c: Chat, s': State) {
    && (forall x | x in s.tasks :: x in s'.tasks && s'.tasks[x].chat == s.tasks[x].chat
                                   && s'.tasks[x].phase == s.tasks[x].phase)
    && (forall x | x in s'.tasks :: x in s.tasks)
    && (forall x | x in s.tasks && !s'.tasks[x].cancelled :: !s.tasks[x].cancelled)
    && (forall x | x in s.tasks && s'.tasks[x].cancelled ::
          s.tasks[x].cancelled || (c in s.handlers && s.handlers[c].Taken? && s.handlers[c].task == Some(x)))
    && (c in s.handlers && s.handlers[c].Taken? && s.handlers[c].task.Some? && s.handlers[c].task.value in s.tasks ==>
          s'.tasks[s.handlers[c].task.value].cancelled)
  }

  /** Only the chat's own handler moves, and only one that takes the active lookup
      changes `active`. */
  ghost predicate MovesHandler(s: State, c: Chat, s': State) {
    forall d | d != c ::
      (d in s'.handlers <==> d in s.handlers) && (d in s.handlers ==> s'.handlers[d] == s.handlers[d])
  }

  ghost predicate MovesActive(s: State, c: Chat, s': State) {
    && (forall d | d != c :: (d in s'.active <==> d in s.active) && (d in s.active ==> s'.active[d] == s.active[d]))
    && (if c in s'.handlers && s'.handlers[c].Taken? then
          c !in s'.active && s'.handlers[c].task == if c in s.active then Some(s.active[c]) else None
        else (c in s'.active <==> c in s.active) && (c in s.active ==> s'.active[c] == s.active[c]))
  }

  /** Handler steps other than launching a lookup. */
  ghost predicate HandlerStep(s: State, c: Chat, s': State) {
    && CancelsTaken(s, c, s') && MovesHandler(s, c, s') && MovesActive(s, c, s')
    && s'.shutdown == s.shutdown && s'.nextId >= s.nextId
  }

  predicate ByHandler(a: Action) {
    !ByTask(a) && !a.Shutdown? && !a.Launch?
  }

  lemma ByHandlerCancelsTaken(s: State, a: Action)
    requires Enabled(s, a) && ByHandler(a)
    ensures CancelsTaken(s, a.chat, Do(s, a))
  {
  }

  lemma ByHandlerMovesHandler(s: State, a: Action)
    requires Enabled(s, a) && ByHandler(a)
    ensures MovesHandler(s, a.chat, Do(s, a))
    ensures Do(s, a).shutdown == s.shutdown && Do(s, a).nextId >= s.nextId
  {
  }

  lemma ByHandlerMovesActive(s: State, a: Action)
    requires Enabled(s, a) && ByHandler(a)
    ensures MovesActive(s, a.chat, Do(s, a))
  {
  }

  lemma ByHandlerIsHandlerStep(s: State, a: Action)
    requires Enabled(s, a) && ByHandler(a)
    ensures HandlerStep(s, a.chat, Do(s, a))
  {
    assert CancelsTaken(s, a.chat, Do(s, a)) by { ByHandlerCancelsTaken(s, a); }
    assert MovesHandler(s, a.chat, Do(s, a)) && Do(s, a).shutdown == s.shutdown && Do(s, a).nextId >= s.nextId by {
      ByHandlerMovesHandler(s, a);
    }
    assert MovesActive(s, a.chat, Do(s, a)) by { ByHandlerMovesActive(s, a); }
  }

  lemma HandlerKeepsTasks(s: State, c: Chat, s': State)
    requires TasksOk(s) && HandlerStep(s, c, s')
    ensures TasksOk(s')
  {
    forall x | x in s'.tasks ensures x < s'.nextId && Tracked(s', x) {
      assert Tracked(s, x);
    }
  }

  /** Which id a handler may hold after its step. */
  ghost predicate ReservesWell(s: State, c: Chat, s': State) {
    c in s'.handlers ==>
      var h := s'.handlers[c];
      && (Reserved(h).Some? ==>
            || (c in s.handlers && Reserved(s.handlers[c]) == Reserved(h))
            || (Reserved(h).value == s.nextId < s'.nextId))
      && (Replacing(h) || h.Submitted? || h.Refused? ==>
            h.Taken? || (c in s.handlers && (Replacing(s.handlers[c]) || s.handlers[c].Submitted?)))
      && (h.HaveSession? ==> Dialog(h.session.step))
  }

  lemma ByHandlerReservesWell(s: State, a: Action)
    requires Enabled(s, a) && ByHandler(a)
    ensures ReservesWell(s, a.chat, Do(s, a))
  {
    match a {
      case TakeActive(_) => TakingReservesWell(s, a);
      case SignalCancel(_) => TakingReservesWell(s, a);
      case _ =>
    }
  }

  lemma TakingReservesWell(s: State, a: Action)
    requires Enabled(s, a) && (a.TakeActive? || a.SignalCancel?)
    ensures ReservesWell(s, a.chat, Do(s, a))
  {
  }

  lemma HandlerKeepsHandlers(s: State, c: Chat, s': State)
    requires TasksOk(s) && HandlersOk(s) && HandlerStep(s, c, s') && ReservesWell(s, c, s')
    ensures HandlersOk(s')
  {
    forall d | d in s'.handlers ensures HandlerOk(s', d) {
      if d in s.handlers {
        assert HandlerOk(s, d);
      }
    }
    if c in s.handlers {
      assert HandlerOk(s, c);
    }
    forall d | d in s.handlers ensures Reserved(s.handlers[d]) != Some(s.nextId) {
      assert HandlerOk(s, d);
    }
  }

  /** What a handler's step may do to its chat's session. */
  ghost predicate SessionByHandler(s: State, c: Chat, s': State) {
    && (forall d | d != c ::
          (d in s'.sessions <==> d in s.sessions) && (d in s.sessions ==> s'.sessions[d] == s.sessions[d]))
    && forall n | WaitsOn(s'.sessions, c, Local(n)) ::
         || (c in s'.handlers && s'.handlers[c].Submitted? && s'.handlers[c].id == n)
         || (&& WaitsOn(s.sessions, c, Local(n))
             && (TakesOver(s, c, s') || HandsOver(s, c, s')))
  }

  /** The handler is now between cancelling and replacing, and came there in order. */
  predicate TakesOver(s: State, c: Chat, s': State) {
    && c in s'.handlers && Replacing(s'.handlers[c])
    && c in s.handlers && !s.handlers[c].Submitted? && !s.handlers[c].Refused?
  }

  /** The handler neither was nor is between cancelling and replacing. */
  predicate HandsOver(s: State, c: Chat, s': State) {
    && (c in s.handlers ==> !Replacing(s.handlers[c]) && !s.handlers[c].Submitted? && !s.handlers[c].Refused?)
    && (c in s'.handlers ==> !Replacing(s'.handlers[c]) && !s'.handlers[c].Submitted? && !s'.handlers[c].Refused?)
  }

  predicate WritesSession(a: Action) {
    a.SavePage? || a.SetEditing? || a.Answer? || a.ClearSession? || a.SetWaiting? || a.CompleteRefused?
  }

  lemma WriterSession(s: State, a: Action)
    requires Enabled(s, a) && WritesSession(a)
    requires a.CompleteRefused? ==> forall n | WaitsOn(s.sessions, a.chat, Local(n)) :: n == s.handlers[a.chat].id
    requires a.Answer? ==> Dialog(s.handlers[a.chat].session.step)
    ensures SessionByHandler(s, a.chat, Do(s, a))
  {
    match a {
      case Answer(_, _, _) => AnswerSession(s, a);
      case CompleteRefused(_) => RefusedSession(s, a);
      case _ =>
    }
  }

  lemma AnswerSession(s: State, a: Action)
    requires Enabled(s, a) && a.Answer? && Dialog(s.handlers[a.chat].session.step)
    ensures SessionByHandler(s, a.chat, Do(s, a))
  {
  }

  lemma RefusedSession(s: State, a: Action)
    requires Enabled(s, a) && a.CompleteRefused?
    requires forall n | WaitsOn(s.sessions, a.chat, Local(n)) :: n == s.handlers[a.chat].id
    ensures SessionByHandler(s, a.chat, Do(s, a))
  {
  }

  lemma ReaderSession(s: State, a: Action)
    requires Enabled(s, a) && ByHandler(a) && !WritesSession(a)
    ensures SessionByHandler(s, a.chat, Do(s, a))
  {
    assert Do(s, a).sessions == s.sessions;
  }

  lemma ByHandlerSession(s: State, a: Action)
    requires Enabled(s, a) && ByHandler(a) && HandlersOk(s) && WaitersOk(s)
    ensures SessionByHandler(s, a.chat, Do(s, a))
  {
    if WritesSession(a) {
      assert HandlerOk(s, a.chat);
      forall n | WaitsOn(s.sessions, a.chat, Local(n)) ensures WaitOk(s, a.chat, n) {
      }
      WriterSession(s, a);
    } else {
      ReaderSession(s, a);
    }
  }

  lemma HandlerKeepsWaiters(s: State, c: Chat, s': State)
    requires TasksOk(s) && HandlersOk(s) && WaitersOk(s) && HandlerStep(s, c, s') && SessionByHandler(s, c, s')
    ensures WaitersOk(s')
  {
    forall d, n | WaitsOn(s'.sessions, d, Local(n)) ensures WaitOk(s', d, n) {
      if d != c || WaitsOn(s.sessions, c, Local(n)) {
        assert WaitsOn(s.sessions, d, Local(n));
        assert WaitOk(s, d, n);
      }
      if c in s.handlers {
        assert HandlerOk(s, c);
      }
    }
  }

  // ─── Launching ──────────────────────────────────────────────────────────────

  lemma LaunchKeepsTasks(s: State, c: Chat)
    requires TasksOk(s) && HandlersOk(s) && Enabled(s, Launch(c))
    ensures TasksOk(Do(s, Launch(c)))
  {
    var s' := Do(s, Launch(c));
    assert HandlerOk(s, c);
    forall x | x in s'.tasks ensures x < s'.nextId && Tracked(s', x) {
      if x in s.tasks {
        assert Tracked(s, x);
      }
    }
  }

  lemma LaunchKeepsHandlers(s: State, c: Chat)
    requires TasksOk(s) && HandlersOk(s) && Enabled(s, Launch(c))
    ensures HandlersOk(Do(s, Launch(c)))
  {
    var s' := Do(s, Launch(c));
    assert HandlerOk(s, c);
    forall d | d in s'.handlers ensures HandlerOk(s', d) {
      assert HandlerOk(s, d);
    }
  }

  lemma LaunchKeepsWaiters(s: State, c: Chat)
    requires TasksOk(s) && HandlersOk(s) && WaitersOk(s) && Enabled(s, Launch(c))
    ensures WaitersOk(Do(s, Launch(c)))
  {
    var s' := Do(s, Launch(c));
    forall d, n | WaitsOn(s'.sessions, d, Local(n)) ensures WaitOk(s', d, n) {
      assert WaitOk(s, d, n);
      if d == c {
        LaunchedServes(s, c, n);
      } else {
        assert HandlerOk(s, c);
        LaunchLeavesOthers(s, c, d, n);
      }
    }
  }

  lemma LaunchedServes(s: State, c: Chat, n: TaskId)
    requires Enabled(s, Launch(c)) && WaitOk(s, c, n)
    ensures WaitOk(Do(s, Launch(c)), c, n)
  {
  }

  lemma LaunchLeavesOthers(s: State, c: Chat, d: Chat, n: TaskId)
    requires Enabled(s, Launch(c)) && s.handlers[c].id !in s.tasks && d != c && WaitOk(s, d, n)
    ensures WaitOk(Do(s, Launch(c)), d, n)
  {
  }

  lemma StepKeeps(s: State, a: Action)
    requires Inv(s) && Enabled(s, a)
    ensures Inv(Do(s, a))
  {
    var s' := Do(s, a);
    if a.Launch? {
      assert HandlerOk(s, a.chat);
      SlotsKeep(s, a);
      LaunchKeepsTasks(s, a.chat);
      LaunchKeepsHandlers(s, a.chat);
      LaunchKeepsWaiters(s, a.chat);
    } else {
      SlotsKeep(s, a);
      if ByTask(a) {
        ByTaskIsTaskStep(s, a);
        ByTaskIsSessionStep(s, a);
        TaskKeepsTasks(s, a.id, s');
        TaskKeepsHandlers(s, a.id, s');
        TaskKeepsWaiters(s, a.id, s');
      } else if ByHandler(a) {
        ByHandlerIsHandlerStep(s, a);
        ByHandlerReservesWell(s, a);
        HandlerKeepsTasks(s, a.chat, s');
        HandlerKeepsHandlers(s, a.chat, s');
        ByHandlerSession(s, a);
        HandlerKeepsWaiters(s, a.chat, s');
      } else {
        ShutdownKeeps(s);
      }
    }
  }

  lemma ShutdownKeeps(s: State)
    requires TasksOk(s) && HandlersOk(s) && WaitersOk(s)
    ensures TasksOk(Do(s, Shutdown)) && HandlersOk(Do(s, Shutdown)) && WaitersOk(Do(s, Shutdown))
  {
    var s' := Do(s, Shutdown);
    forall x | x in s'.tasks ensures Tracked(s', x) {
      assert Tracked(s, x);
    }
    forall d | d in s'.handlers ensures HandlerOk(s', d) {
      assert HandlerOk(s, d);
    }
    forall d, n | WaitsOn(s'.sessions, d, Local(n)) ensures WaitOk(s', d, n) {
      assert WaitOk(s, d, n);
    }
  }

  // ─── What every run keeps ───────────────────────────────────────────────────

  ghost predicate Possible(s: State, actions: seq<Action>)
    decreases |actions|
  {
    actions != [] ==> Enabled(s, actions[0]) && Possible(Do(s, actions[0]), actions[1..])
  }

  ghost function After(s: State, actions: seq<Action>): State
    requires Possible(s, actions)
    decreases |actions|
  {
    if actions == [] then s else After(Do(s, actions[0]), actions[1..])
  }

  ghost predicate Leads(s: State, actions: seq<Action>, s': State) {
    Possible(s, actions) && After(s, actions) == s'
  }

  lemma {:induction false} LeadsOn(s: State, actions: seq<Action>, s': State, a: Action)
    requires Leads(s, actions, s') && Enabled(s', a)
    ensures Leads(s, actions + [a], Do(s', a))
    decreases |actions|
  {
    if actions == [] {
      assert [a][1..] == [] && actions + [a] == [a];
      assert After(Do(s', a), []) == Do(s', a);
    } else {
      assert (actions + [a])[1..] == actions[1..] + [a];
      LeadsOn(Do(s, actions[0]), actions[1..], s', a);
    }
  }

  ghost predicate Steps(s: State, a: Action, s': State) {
    Enabled(s, a) && Do(s, a) == s'
  }

  lemma OneStep(s: State, a: Action, s': State)
    requires Steps(s, a, s')
    ensures Leads(s, [a], s')
  {
    assert Leads(s, [], s);
    LeadsOn(s, [], s, a);
    assert [] + [a] == [a];
  }

  lemma TwoSteps(s: State, a: Action, s1: State, b: Action, s2: State)
    requires Steps(s, a, s1) && Steps(s1, b, s2)
    ensures Leads(s, [a, b], s2)
  {
    OneStep(s, a, s1);
    LeadsOn(s, [a], s1, b);
    assert [a] + [b] == [a, b];
  }

  lemma {:induction false} LeadsThen(s: State, first: seq<Action>, mid: State, rest: seq<Action>, s': State)
    requires Leads(s, first, mid) && Leads(mid, rest, s')
    ensures Leads(s, first + rest, s')
    decreases |first|
  {
    if first == [] {
      assert first + rest == rest;
    } else {
      assert (first + rest)[1..] == first[1..] + rest;
      LeadsThen(Do(s, first[0]), first[1..], mid, rest, s');
    }
  }

  const START: State := State(map[], map[], map[], 0, map[], 0, false)

  lemma {:induction false} RunKeeps(s: State, actions: seq<Action>)
    requires Inv(s) && Possible(s, actions)
    ensures Inv(After(s, actions))
    decreases |actions|
  {
    if actions != [] {
      StepKeeps(s, actions[0]);
      RunKeeps(Do(s, actions[0]), actions[1..]);
    }
  }

  ghost predicate Reachable(s: State) {
    exists actions :: Possible(START, actions) && After(START, actions) == s
  }

  lemma ReachableInv(s: State)
    requires Reachable(s)
    ensures Inv(s)
  {
    var actions :| Possible(START, actions) && After(START, actions) == s;
    RunKeeps(START, actions);
  }

  /** At most eight lookups hold a slot, and the count is exact. */
  lemma SlotsBounded(s: State)
    requires Reachable(s)
    ensures |SlotUsers(s.tasks)| == s.slots <= 8
  {
    ReachableInv(s);
  }

  /** Outside a handler and before shutdown, a chat waiting for a lookup has one: the
      active, uncancelled goroutine with that very id, not yet past completion. */
  lemma WaitersAreServed(s: State, chat: Chat, id: TaskId)
    requires Reachable(s) && !s.shutdown && chat !in s.handlers && WaitsOn(s.sessions, chat, Local(id))
    ensures Live(s, chat, id)
  {
    ReachableInv(s);
    assert WaitOk(s, chat, id);
  }

  /** A late completion, of a cancelled lookup or one the chat does not wait on, in
      every reachable state: it changes the chat's session exactly in the window in
      which the chat's own handler has cancelled the lookup and has yet to replace
      the session. It never reaches another chat or a newer lookup. */
  lemma LateCompletionIsHarmless(s: State, id: TaskId, chat: Chat)
    requires Reachable(s) && Enabled(s, Complete(id))
    requires s.tasks[id].cancelled || s.tasks[id].chat != chat || !WaitsOn(s.sessions, chat, Local(id))
    ensures Current(Do(s, Complete(id)).sessions, chat) != Current(s.sessions, chat) <==>
            && s.tasks[id].chat == chat && WaitsOn(s.sessions, chat, Local(id))
            && chat in s.handlers && Replacing(s.handlers[chat])
  {
    ReachableInv(s);
    if WaitsOn(s.sessions, chat, Local(id)) {
      assert WaitOk(s, chat, id);
      if chat in s.handlers {
        assert HandlerOk(s, chat);
      }
    }
  }

  // The window is real.

  /** A chat waits on its lookup, whose goroutine is about to complete it … */
  const ABOUT_TO_COMPLETE: State :=
    State(map[0 := Waiting(0, 0)], map[], map[0 := 0], 1, map[0 := Task(0, 0, Finishing(EMPTY), false)], 1, false)

  /** … when the user cancels. */
  const CANCELLED_TOO_LATE: State :=
    State(map[0 := Waiting(0, 0)], map[0 := Cancelled(ToClear)], map[], 1,
          map[0 := Task(0, 0, Finishing(EMPTY), true)], 1, false)

  const ALLOCATED: State := State(map[], map[0 := Allocated(0)], map[], 0, map[], 1, false)

  const SUBMITTED: State := State(map[0 := Waiting(0, 0)], map[0 := Submitted(0, 0)], map[], 0, map[], 1, false)

  lemma Allocates() returns (actions: seq<Action>)
    ensures Leads(START, actions, ALLOCATED)
  {
    var s1 := START.(handlers := map[0 := Started(Text(true))]);
    var s2 := START.(handlers := map[0 := HaveIdle]);
    TwoSteps(START, Receive(0, Text(true)), s1, ReadSession(0), s2);
    LeadsOn(START, [Receive(0, Text(true)), ReadSession(0)], s2, Allocate(0));
    actions := [Receive(0, Text(true)), ReadSession(0)] + [Allocate(0)];
  }

  lemma Submits() returns (actions: seq<Action>)
    ensures Leads(ALLOCATED, actions, SUBMITTED)
  {
    var s := ALLOCATED;
    var s1 := s.(handlers := map[0 := Taken(None, ToSubmit(0))]);
    var s2 := s.(handlers := map[0 := Cancelled(ToSubmit(0))]);
    var s3 := s.(handlers := map[0 := HavePage(0, 0)]);
    TwoSteps(s, TakeActive(0), s1, SignalCancel(0), s2);
    TwoSteps(s2, ReadPage(0), s3, SetWaiting(0), SUBMITTED);
    LeadsThen(s, [TakeActive(0), SignalCancel(0)], s2, [ReadPage(0), SetWaiting(0)], SUBMITTED);
    actions := [TakeActive(0), SignalCancel(0)] + [ReadPage(0), SetWaiting(0)];
  }

  lemma Fetches() returns (actions: seq<Action>)
    ensures Leads(SUBMITTED, actions, ABOUT_TO_COMPLETE)
  {
    var s1 := ABOUT_TO_COMPLETE.(tasks := map[0 := Task(0, 0, Starting, false)]);
    TwoSteps(SUBMITTED, Launch(0), s1, StartFails(0), ABOUT_TO_COMPLETE);
    actions := [Launch(0), StartFails(0)];
  }

  lemma CancelsTooLate() returns (actions: seq<Action>)
    ensures Leads(ABOUT_TO_COMPLETE, actions, CANCELLED_TOO_LATE)
  {
    var s := ABOUT_TO_COMPLETE;
    var s1 := s.(handlers := map[0 := Started(ClearAll)]);
    var s2 := s.(handlers := map[0 := Taken(Some(0), ToClear)], active := map[]);
    TwoSteps(s, Receive(0, ClearAll), s1, TakeActive(0), s2);
    LeadsOn(s, [Receive(0, ClearAll), TakeActive(0)], s2, SignalCancel(0));
    actions := [Receive(0, ClearAll), TakeActive(0)] + [SignalCancel(0)];
  }

  /** A reachable state in which a cancelled lookup still changes its chat's session. */
  lemma WindowIsReachable()
    ensures var s := CANCELLED_TOO_LATE;
            && Reachable(s) && Enabled(s, Complete(0)) && s.tasks[0].cancelled
            && Current(Do(s, Complete(0)).sessions, 0) != Current(s.sessions, 0)
  {
    var a := Allocates();
    var b := Submits();
    var c := Fetches();
    var d := CancelsTooLate();
    LeadsThen(START, a, ALLOCATED, b, SUBMITTED);
    LeadsThen(START, a + b, SUBMITTED, c, ABOUT_TO_COMPLETE);
    LeadsThen(START, a + b + c, ABOUT_TO_COMPLETE, d, CANCELLED_TOO_LATE);
  }

  /** What the handler in that window still does to the session. */
  function Replacement(chat: Chat, h: Handler): seq<Action>
    requires Replacing(h)
  {
    match h
    case Taken(_, goal) => [SignalCancel(chat)] + Finally(chat, goal)
    case Cancelled(goal) => Finally(chat, goal)
    case HavePage(_, _) => [SetWaiting(chat)]
  }

  function Finally(chat: Chat, goal: Goal): seq<Action> {
    if goal.ToClear? then [ClearSession(chat)] else [ReadPage(chat), SetWaiting(chat)]
  }

  /** The same but for one chat's session, whose page is the same too, and the phase
      of lookup `id`. */
  ghost predicate SameButSession(s: State, s': State, chat: Chat, id: TaskId) {
    && s'.handlers == s.handlers && s'.tasks.Keys == s.tasks.Keys
    && (forall x | x in s.tasks && x != id :: s'.tasks[x] == s.tasks[x])
    && Current(s'.sessions, chat).page == Current(s.sessions, chat).page
    && Sessions.Without(s'.sessions, chat) == Sessions.Without(s.sessions, chat)
  }

  lemma CompleteChangesSessionOnly(s: State, id: TaskId)
    requires Enabled(s, Complete(id))
    ensures SameButSession(s, Do(s, Complete(id)), s.tasks[id].chat, id)
  {
    var chat, s' := s.tasks[id].chat, Do(s, Complete(id));
    assert Sessions.Without(s'.sessions, chat) == Sessions.Without(s.sessions, chat);
  }

  lemma CancelInAlike(tasks: map<TaskId, Task>, tasks': map<TaskId, Task>, task: Option<TaskId>, id: TaskId)
    requires tasks'.Keys == tasks.Keys && forall x | x in tasks && x != id :: tasks'[x] == tasks[x]
    ensures var t, t' := CancelIn(tasks, task), CancelIn(tasks', task);
            t'.Keys == t.Keys && forall x | x in t && x != id :: t'[x] == t[x]
  {
  }

  lemma SignalAlike(s: State, s': State, chat: Chat, id: TaskId)
    requires SameButSession(s, s', chat, id) && Enabled(s, SignalCancel(chat))
    ensures Enabled(s', SignalCancel(chat))
    ensures SameButSession(Do(s, SignalCancel(chat)), Do(s', SignalCancel(chat)), chat, id)
  {
    var t, t' := Do(s, SignalCancel(chat)), Do(s', SignalCancel(chat));
    assert t.sessions == s.sessions && t'.sessions == s'.sessions;
    assert t.tasks == CancelIn(s.tasks, s.handlers[chat].task) && t'.tasks == CancelIn(s'.tasks, s.handlers[chat].task);
    CancelInAlike(s.tasks, s'.tasks, s.handlers[chat].task, id);
  }

  lemma ReadAlike(s: State, s': State, chat: Chat, id: TaskId)
    requires SameButSession(s, s', chat, id) && Enabled(s, ReadPage(chat))
    ensures Enabled(s', ReadPage(chat))
    ensures SameButSession(Do(s, ReadPage(chat)), Do(s', ReadPage(chat)), chat, id)
  {
  }

  /** Clearing and replacing leave the same sessions whatever the old one was. */
  lemma ReplacedAlike(s: State, s': State, chat: Chat, id: TaskId, a: Action)
    requires SameButSession(s, s', chat, id) && Enabled(s, a) && (a == ClearSession(chat) || a == SetWaiting(chat))
    ensures Enabled(s', a) && Do(s', a).sessions == Do(s, a).sessions
  {
    assert forall c | c != chat :: (c in s'.sessions <==> c in Sessions.Without(s'.sessions, chat))
                                   && (c in s.sessions <==> c in Sessions.Without(s.sessions, chat));
    forall c | c != chat && c in s.sessions ensures c in s'.sessions && s'.sessions[c] == s.sessions[c] {
      assert Sessions.Without(s.sessions, chat)[c] == Sessions.Without(s'.sessions, chat)[c];
    }
    assert Do(s', a).sessions == Do(s, a).sessions;
  }

  /** Both states run through the replacement and end with the same sessions. */
  ghost predicate EndAlike(s: State, s': State, actions: seq<Action>) {
    Possible(s, actions) && Possible(s', actions) && After(s', actions).sessions == After(s, actions).sessions
  }

  lemma EndAlikeStep(s: State, s': State, a: Action, rest: seq<Action>)
    requires Enabled(s, a) && Enabled(s', a) && EndAlike(Do(s, a), Do(s', a), rest)
    ensures EndAlike(s, s', [a] + rest)
  {
    assert ([a] + rest)[1..] == rest;
  }

  lemma LastAlike(s: State, s': State, chat: Chat, id: TaskId, a: Action)
    requires SameButSession(s, s', chat, id) && Enabled(s, a) && (a == ClearSession(chat) || a == SetWaiting(chat))
    ensures EndAlike(s, s', [a])
  {
    ReplacedAlike(s, s', chat, id, a);
    assert [a][1..] == [];
    assert After(Do(s, a), []) == Do(s, a) && After(Do(s', a), []) == Do(s', a);
  }

  lemma FinallyAlike(s: State, s': State, chat: Chat, id: TaskId, goal: Goal)
    requires SameButSession(s, s', chat, id) && chat in s.handlers && s.handlers[chat] == Cancelled(goal)
    ensures EndAlike(s, s', Finally(chat, goal))
  {
    if goal.ToClear? {
      LastAlike(s, s', chat, id, ClearSession(chat));
    } else {
      ReadAlike(s, s', chat, id);
      LastAlike(Do(s, ReadPage(chat)), Do(s', ReadPage(chat)), chat, id, SetWaiting(chat));
      EndAlikeStep(s, s', ReadPage(chat), [SetWaiting(chat)]);
      assert [ReadPage(chat)] + [SetWaiting(chat)] == Finally(chat, goal);
    }
  }

  /** Nothing of it lasts: with or without the completion, the handler goes on to
      leave the same sessions, and the page that a new lookup inherits is the same. */
  lemma ReplacementHidesCompletion(s: State, id: TaskId, chat: Chat)
    requires Enabled(s, Complete(id)) && s.tasks[id].chat == chat
    requires chat in s.handlers && Replacing(s.handlers[chat])
    ensures EndAlike(s, Do(s, Complete(id)), Replacement(chat, s.handlers[chat]))
  {
    var s' := Do(s, Complete(id));
    CompleteChangesSessionOnly(s, id);
    match s.handlers[chat]
    case Taken(task, goal) =>
      SignalAlike(s, s', chat, id);
      FinallyAlike(Do(s, SignalCancel(chat)), Do(s', SignalCancel(chat)), chat, id, goal);
      EndAlikeStep(s, s', SignalCancel(chat), Finally(chat, goal));
    case Cancelled(goal) => FinallyAlike(s, s', chat, id, goal);
    case HavePage(_, _) => LastAlike(s, s', chat, id, SetWaiting(chat));
  }

  /** And it does reach the one that waits for it. */
  lemma TimelyCompletionArrives(s: State, id: TaskId)
    requires Reachable(s) && Enabled(s, Complete(id)) && WaitsOn(s.sessions, s.tasks[id].chat, Local(id))
    ensures var chat := s.tasks[id].chat;
            Current(Do(s, Complete(id)).sessions, chat) ==
            s.tasks[id].phase.result.(page := s.sessions[chat].page)
  {
  }

  /** A chat has at most one lookup that is neither cancelled nor over, unless its
      handler is about to cancel the other. */
  lemma OneLookupPerChat(s: State, chat: Chat, x: TaskId, y: TaskId)
    requires Reachable(s) && x in s.tasks && y in s.tasks && s.tasks[x].chat == chat == s.tasks[y].chat
    requires !s.tasks[x].cancelled && !s.tasks[y].cancelled && !s.tasks[x].phase.Ended? && !s.tasks[y].phase.Ended?
    requires chat !in s.handlers || !s.handlers[chat].Taken?
    ensures x == y
  {
    ReachableInv(s);
    assert Tracked(s, x) && Tracked(s, y);
  }
}
