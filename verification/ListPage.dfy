/** What a page of the "my products" list shows and offers, in the words and buttons the
    user sees. */
module ListPage {
  import opened Wrappers
  import opened Paging
  import opened MyList

  // ─── Text ───────────────────────────────────────────────────────────────────

  function Heading(total: nat, page: nat): string {
    "📋 Твои товары (" + Decimal(total) + ") — страница " + Decimal(page) + ":\n"
  }

  /** The first lines of a subscription: number and name, marked if paused, then the range. */
  function Top(s: Subscription, number: nat): string {
    "\n" + Decimal(number) + ". " + Truncated(s.name, 200) + (if s.paused then " ⏸" else "") + "\n"
    + match s.range
      case None => ""
      case Some((low, high)) => "   " + low + " — " + high + " ₽\n"
  }

  /** The link is cut to what is left of a message beside the longest heading. */
  function Room(total: nat, top: string): int {
    4096 - Units(Heading(total, if total > 1 then total else 1)) - Units(top) - Units("   • ") - Units("\n")
  }

  function Lines(s: Subscription, number: nat, total: nat): string {
    var top := Top(s, number);
    if s.url == "" then top else top + "   • " + Truncated(s.url, Room(total, top)) + "\n"
  }

  function Joined(parts: seq<string>): string {
    if parts == [] then "" else parts[0] + Joined(parts[1..])
  }

  lemma {:induction false} JoinedAppend(parts: seq<string>, last: string)
    ensures Joined(parts + [last]) == Joined(parts) + last
  {
    if parts == [] {
      assert [last][1..] == [];
    } else {
      assert (parts + [last])[1..] == parts[1..] + [last];
      JoinedAppend(parts[1..], last);
    }
  }

  function Chosen(entries: seq<string>, indices: seq<nat>): seq<string>
    requires Below(indices, |entries|)
  {
    seq(|indices|, k requires 0 <= k < |indices| => entries[indices[k]])
  }

  lemma {:induction false} BodyIsJoined(entries: seq<string>, indices: seq<nat>)
    requires Below(indices, |entries|)
    ensures Body(entries, indices) == Joined(Chosen(entries, indices))
  {
    if indices != [] {
      var n := |indices| - 1;
      BodyIsJoined(entries, indices[..n]);
      assert Chosen(entries, indices) == Chosen(entries, indices[..n]) + [entries[indices[n]]];
      JoinedAppend(Chosen(entries, indices[..n]), entries[indices[n]]);
    }
  }

  /** The lines of every subscription, numbered over the whole list. */
  predicate AreLines(subs: seq<Subscription>, all: seq<string>) {
    |all| == |subs| && forall i | 0 <= i < |subs| :: all[i] == Lines(subs[i], i + 1, |subs|)
  }

  lemma HeaderReads(total: nat, page: nat)
    ensures Header(total, page) == Heading(total, page)
  {
  }

  lemma EntryReads(s: Subscription, number: nat, total: nat)
    ensures Entry(s, number, EntryLimit(total)) == Lines(s, number, total)
  {
    TopReads(s, number);
    HeaderReads(total, if total > 1 then total else 1);
    assert Units("\n") == 1;
    LinkReads(s, Top(s, number), Room(total, Top(s, number)));
  }

  lemma TopReads(s: Subscription, number: nat)
    ensures Title(s, number) + RangeLine(s) == Top(s, number)
  {
  }

  lemma LinkReads(s: Subscription, top: string, room: int)
    ensures top + UrlLine(s, room) == top + "   • " + Truncated(s.url, room) + "\n"
  {
  }

  lemma LinesAt(subs: seq<Subscription>, i: nat)
    requires i < |subs|
    ensures Entries(subs)[i] == Lines(subs[i], i + 1, |subs|)
  {
    EntryAt(subs, |subs|, i);
    EntryReads(subs[i], i + 1, |subs|);
  }

  lemma EntriesAreLines(subs: seq<Subscription>) returns (all: seq<string>)
    ensures AreLines(subs, all) && all == Entries(subs)
  {
    all := Entries(subs);
    forall i | 0 <= i < |subs| ensures all[i] == Lines(subs[i], i + 1, |subs|) {
      LinesAt(subs, i);
    }
  }

  /** A page is its heading and the lines of its subscriptions, one after the other. */
  lemma PageReads(subs: seq<Subscription>, page: nat) returns (all: seq<string>)
    requires 1 <= page <= |PagesOf(subs)|
    ensures AreLines(subs, all) && Below(PagesOf(subs)[page - 1], |all|)
    ensures PageText(subs, page) == Heading(|subs|, page) + Joined(Chosen(all, PagesOf(subs)[page - 1]))
  {
    PageIndices(Sizes(Entries(subs)), page - 1);
    all := EntriesAreLines(subs);
    BodyIsJoined(all, PagesOf(subs)[page - 1]);
    HeaderReads(|subs|, page);
  }

  // ─── Buttons ────────────────────────────────────────────────────────────────

  /** A subscription can be edited, paused if it runs and resumed if it is paused, looked
      up, checked and deleted. */
  function Offers(s: Subscription): seq<seq<Button>> {
    [[EditSub(s.id), if s.paused then ResumeSub(s.id) else PauseSub(s.id)],
     [HistorySub(s.id), CheckSub(s.id)],
     [DeleteSub(s.id)]]
  }

  lemma {:induction false} RowsOffer(subs: seq<Subscription>, indices: seq<nat>, k: nat)
    requires Below(indices, |subs|) && k < |indices|
    ensures |Rows(subs, indices)| == 3 * |indices|
    ensures Rows(subs, indices)[3 * k..3 * k + 3] == Offers(subs[indices[k]])
  {
    var n := |indices| - 1;
    RowsThrice(subs, indices);
    RowsThrice(subs, indices[..n]);
    if k < n {
      RowsOffer(subs, indices[..n], k);
    }
  }

  lemma {:induction false} RowsThrice(subs: seq<Subscription>, indices: seq<nat>)
    requires Below(indices, |subs|)
    ensures |Rows(subs, indices)| == 3 * |indices|
  {
    if indices != [] {
      RowsThrice(subs, indices[..|indices| - 1]);
    }
  }

  /** The keyboard offers that for each subscription on the page, in the order of the text;
      a last row turns pages if there are several. */
  lemma KeyboardOffers(subs: seq<Subscription>, page: nat, k: nat)
    requires 1 <= page <= |PagesOf(subs)| && k < |PagesOf(subs)[page - 1]|
    ensures var indices, keyboard := PagesOf(subs)[page - 1], Keyboard(subs, page);
            && |keyboard| == 3 * |indices| + (if |PagesOf(subs)| > 1 then 1 else 0)
            && indices[k] < |subs| && keyboard[3 * k..3 * k + 3] == Offers(subs[indices[k]])
  {
    PageIndices(Sizes(Entries(subs)), page - 1);
    RowsOffer(subs, PagesOf(subs)[page - 1], k);
  }
}
