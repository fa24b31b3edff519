/** How the price dialog of a chat goes on: what each answer and each command leaves of
    the session, field by field, and the two answers that end it. */
module Dialog {
  import opened Wrappers
  import opened Sessions
  import opened BotLookup

  predicate AsksForMin(step: Step) {
    step == WaitingMinPrice || step == EditingMinPrice
  }

  predicate AsksForMax(step: Step) {
    step == WaitingMaxPrice || step == EditingMaxPrice
  }

  /** Asked for the lowest price, the dialog remembers it and goes on to the highest. */
  predicate Remembers(sess: Session, price: int, sess': Session) {
    && sess'.minPrice == price
    && sess'.step == (if sess.step == WaitingMinPrice then WaitingMaxPrice else EditingMaxPrice)
    && sess'.lookup == sess.lookup && sess'.productName == sess.productName && sess'.productUrl == sess.productUrl
    && sess'.currentPrice == sess.currentPrice && sess'.editing == sess.editing && sess'.page == sess.page
    && sess'.oldMin == sess.oldMin && sess'.oldMax == sess.oldMax
  }

  /** Nothing is asked any more; the page of the product list is kept. */
  predicate Ended(sess: Session, sess': Session) {
    sess' == Session(Step.Idle, NoLookup, "", "", 0, 0, None, 0, 0, sess.page)
  }

  /** An answer ends its handler. It moves the dialog on if it is a price; the highest one
      must exceed the lowest, and the Gateway must accept both. */
  lemma AnswerLeaves(s: State, chat: Chat, entered: Option<int>, accepted: bool)
    requires Enabled(s, Answer(chat, entered, accepted)) && Dialog(s.handlers[chat].session.step)
    ensures var s', sess := Do(s, Answer(chat, entered, accepted)), s.handlers[chat].session;
            && chat !in s'.handlers && s'.tasks == s.tasks && s'.active == s.active
            && (forall c | c != chat :: Current(s'.sessions, c) == Current(s.sessions, c))
            && if entered.Some? && AsksForMin(sess.step) then
                 Remembers(sess, entered.value, Current(s'.sessions, chat))
               else if entered.Some? && AsksForMax(sess.step) && sess.minPrice < entered.value && accepted then
                 Ended(sess, Current(s'.sessions, chat))
               else s'.sessions == s.sessions
  {
  }

  /** One text message in an undisturbed chat: read the session, answer it. */
  function Turn(chat: Chat, entered: Option<int>, accepted: bool): seq<Action> {
    [Receive(chat, Text(false)), ReadSession(chat), Answer(chat, entered, accepted)]
  }

  lemma TurnLeads(s: State, chat: Chat, entered: Option<int>, accepted: bool) returns (s': State)
    requires chat !in s.handlers && Dialog(Current(s.sessions, chat).step)
    ensures Leads(s, Turn(chat, entered, accepted), s') && chat !in s'.handlers
    ensures var sess := Current(s.sessions, chat);
            if entered.Some? && AsksForMin(sess.step) then
              Remembers(sess, entered.value, Current(s'.sessions, chat))
            else if entered.Some? && AsksForMax(sess.step) && sess.minPrice < entered.value && accepted then
              Ended(sess, Current(s'.sessions, chat))
            else Current(s'.sessions, chat) == sess
  {
    var sess := Current(s.sessions, chat);
    var s1 := Do(s, Receive(chat, Text(false)));
    var s2 := Do(s1, ReadSession(chat));
    assert s2.handlers[chat] == HaveSession(sess) && s2.sessions == s.sessions;
    s' := Do(s2, Answer(chat, entered, accepted));
    AnswerLeaves(s2, chat, entered, accepted);
    TwoSteps(s, Receive(chat, Text(false)), s1, ReadSession(chat), s2);
    LeadsOn(s, [Receive(chat, Text(false)), ReadSession(chat)], s2, Answer(chat, entered, accepted));
    assert [Receive(chat, Text(false)), ReadSession(chat)] + [Answer(chat, entered, accepted)] ==
           Turn(chat, entered, accepted);
  }

  /** Two prices end the dialog if the second is the higher one and the Gateway accepts
      them; otherwise it still asks for the highest price. */
  lemma TwoPrices(s: State, chat: Chat, low: int, high: int, accepted: bool) returns (s': State)
    requires chat !in s.handlers && AsksForMin(Current(s.sessions, chat).step)
    ensures Leads(s, Turn(chat, Some(low), true) + Turn(chat, Some(high), accepted), s') && chat !in s'.handlers
    ensures if low < high && accepted then Ended(Current(s.sessions, chat), Current(s'.sessions, chat))
            else Remembers(Current(s.sessions, chat), low, Current(s'.sessions, chat))
  {
    var mid := TurnLeads(s, chat, Some(low), true);
    s' := TurnLeads(mid, chat, Some(high), accepted);
    LeadsThen(s, Turn(chat, Some(low), true), mid, Turn(chat, Some(high), accepted), s');
  }

  /** Editing a subscription asks for the lowest price, knows the old thresholds, and keeps
      the page it was read with. */
  lemma EditingLeaves(s: State, chat: Chat, oldMin: int, oldMax: int)
    requires Enabled(s, ReadPageForEdit(chat))
    ensures var s1 := Do(s, ReadPageForEdit(chat));
            && s1.sessions == s.sessions && Enabled(s1, SetEditing(chat, oldMin, oldMax))
            && var s2 := Do(s1, SetEditing(chat, oldMin, oldMax));
            && chat !in s2.handlers
            && s2.sessions == s.sessions[chat := Session(EditingMinPrice, NoLookup, "", "", 0, 0,
                                                         Some(s.handlers[chat].update.sub), oldMin, oldMax,
                                                         Current(s.sessions, chat).page)]
  {
  }

  /** Showing a page of the list is remembered, and nothing else of the dialog changes. */
  lemma ShowingLeaves(s: State, chat: Chat, page: int, last: bool)
    requires Enabled(s, SavePage(chat, page, last))
    ensures var s' := Do(s, SavePage(chat, page, last));
            && Current(s'.sessions, chat).page == page
            && Current(s'.sessions, chat).step == Current(s.sessions, chat).step
            && Current(s'.sessions, chat).lookup == Current(s.sessions, chat).lookup
            && Current(s'.sessions, chat).editing == Current(s.sessions, chat).editing
            && (forall c | c != chat :: Current(s'.sessions, c) == Current(s.sessions, c))
            && (chat in s'.handlers <==> !last)
  {
  }
}
