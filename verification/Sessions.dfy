/** The bot's dialog sessions, one per chat. */
module Sessions {
  import opened Wrappers

  type Chat = int

  /** Lookup ids the bot makes up itself, and those the Gateway hands out. */
  datatype LookupId = NoLookup | Local(n: nat) | Remote(r: nat)

  datatype Step = Idle | WaitingLookup | WaitingMinPrice | WaitingMaxPrice | EditingMinPrice | EditingMaxPrice

  /** Prices in kopecks; `editing`: the subscription being edited. */
  datatype Session = Session(step: Step, lookup: LookupId, productName: string, productUrl: string, currentPrice: int,
                             minPrice: int, editing: Option<nat>, oldMin: int, oldMax: int, page: int)

  const EMPTY: Session := Session(Idle, NoLookup, "", "", 0, 0, None, 0, 0, 0)

  function Current(sessions: map<Chat, Session>, chat: Chat): Session {
    if chat in sessions then sessions[chat] else EMPTY
  }

  function Without(sessions: map<Chat, Session>, chat: Chat): map<Chat, Session> {
    map c | c in sessions && c != chat :: sessions[c]
  }

  /** Not worth storing. */
  predicate Blank(s: Session) {
    s.step == Idle && s.lookup == NoLookup && s.editing == None && s.page == 0
  }

  function Stored(sessions: map<Chat, Session>, chat: Chat, s: Session): map<Chat, Session> {
    if Blank(s) then Without(sessions, chat) else sessions[chat := s]
  }

  predicate WaitsOn(sessions: map<Chat, Session>, chat: Chat, lookup: LookupId) {
    chat in sessions && sessions[chat].step == WaitingLookup && sessions[chat].lookup == lookup
  }

  function Completed(sessions: map<Chat, Session>, chat: Chat, lookup: LookupId, result: Session): map<Chat, Session> {
    if WaitsOn(sessions, chat, lookup) then sessions[chat := result.(page := sessions[chat].page)] else sessions
  }

  /** A session handed out is a copy; storing it back is up to the caller. */
  class Store {
    var sessions: map<Chat, Session>

    constructor ()
      ensures sessions == map[]
    {
      sessions := map[];
    }

    method Get(chat: Chat) returns (s: Session)
      ensures s == Current(sessions, chat)
    {
      if chat in sessions {
        return sessions[chat];
      }
      return EMPTY;
    }

    method Set(chat: Chat, s: Option<Session>)
      modifies this
      ensures s.None? ==> sessions == Without(old(sessions), chat)
      ensures s.Some? ==> sessions == old(sessions)[chat := s.value]
    {
      if s.None? {
        sessions := map c | c in sessions && c != chat :: sessions[c];
        return;
      }
      sessions := sessions[chat := s.value];
    }

    method Update(chat: Chat, f: Session -> Session)
      modifies this
      ensures sessions == Stored(old(sessions), chat, f(Current(old(sessions), chat)))
    {
      var s := if chat in sessions then sessions[chat] else EMPTY;
      s := f(s);
      if s.step == Idle && s.lookup == NoLookup && s.editing == None && s.page == 0 {
        sessions := map c | c in sessions && c != chat :: sessions[c];
        return;
      }
      sessions := sessions[chat := s];
    }

    method CompleteLookup(chat: Chat, lookup: LookupId, result: Session) returns (done: bool)
      modifies this
      ensures done == WaitsOn(old(sessions), chat, lookup)
      ensures sessions == Completed(old(sessions), chat, lookup, result)
      ensures done ==> sessions == old(sessions)[chat := result.(page := old(sessions[chat].page))]
      ensures !done ==> sessions == old(sessions)
      ensures done <==> chat in old(sessions) && old(sessions[chat].step) == WaitingLookup
                        && old(sessions[chat].lookup) == lookup
    {
      if chat !in sessions || sessions[chat].step != WaitingLookup || sessions[chat].lookup != lookup {
        return false;
      }
      sessions := sessions[chat := result.(page := sessions[chat].page)];
      return true;
    }

    method Clear(chat: Chat)
      modifies this
      ensures sessions == Without(old(sessions), chat)
    {
      sessions := map c | c in sessions && c != chat :: sessions[c];
    }
  }

  /** An update is seen by the next read in everything that steers the dialog, and
      in full unless it leaves nothing worth storing; other chats see nothing. */
  lemma UpdateIsSeen(sessions: map<Chat, Session>, chat: Chat, s: Session, other: Chat)
    ensures var seen := Current(Stored(sessions, chat, s), chat);
            && seen.step == s.step && seen.lookup == s.lookup && seen.editing == s.editing && seen.page == s.page
            && (!Blank(s) ==> seen == s)
    ensures other != chat ==> Current(Stored(sessions, chat, s), other) == Current(sessions, other)
  {
  }

  /** A lookup completes at most once. */
  lemma CompletesOnce(sessions: map<Chat, Session>, chat: Chat, lookup: LookupId, first: Session, second: Session)
    requires first.step != WaitingLookup
    ensures Completed(Completed(sessions, chat, lookup, first), chat, lookup, second)
            == Completed(sessions, chat, lookup, first)
  {
  }
}
