/** Building one page of the "my products" list. */
module MyList {
  import opened Wrappers
  import opened Paging

  /** A subscription as it is shown; `range` holds the two thresholds as rendered. */
  datatype Subscription = Subscription(id: string, name: string, url: string, paused: bool,
                                       range: Option<(string, string)>)

  // ─── Text ───────────────────────────────────────────────────────────────────

  const HEADER_START: string := "📋 Твои товары ("
  const HEADER_MIDDLE: string := ") — страница "
  const HEADER_END: string := ":\n"

  function Header(total: nat, page: nat): string {
    HEADER_START + Decimal(total) + HEADER_MIDDLE + Decimal(page) + HEADER_END
  }

  function Title(s: Subscription, index: nat): string {
    "\n" + Decimal(index) + ". " + Truncated(s.name, NAME_LIMIT) + (if s.paused then " ⏸" else "") + "\n"
  }

  function RangeLine(s: Subscription): string {
    if s.range.Some? then "   " + s.range.value.0 + " — " + s.range.value.1 + " ₽\n" else ""
  }

  const URL_PREFIX: string := "   • "

  function UrlLine(s: Subscription, remaining: int): string {
    URL_PREFIX + Truncated(s.url, remaining) + "\n"
  }

  function Entry(s: Subscription, index: nat, maxUnits: int): string {
    var top := Title(s, index) + RangeLine(s);
    if s.url == "" then top else top + UrlLine(s, maxUnits - Units(top) - Units(URL_PREFIX) - 1)
  }

  function Max(a: nat, b: nat): nat {
    if a > b then a else b
  }

  /** What an entry may use, whatever page it lands on. */
  function EntryLimit(total: nat): int {
    TEXT_LIMIT - Units(Header(total, Max(1, total)))
  }

  /** The first `n` entries. */
  function EntriesTo(subs: seq<Subscription>, n: nat): (r: seq<string>)
    requires n <= |subs|
    ensures |r| == n
  {
    if n == 0 then [] else EntriesTo(subs, n - 1) + [Entry(subs[n - 1], n, EntryLimit(|subs|))]
  }

  function Entries(subs: seq<Subscription>): (r: seq<string>)
    ensures |r| == |subs|
  {
    EntriesTo(subs, |subs|)
  }

  lemma EntriesOneMore(subs: seq<Subscription>, n: nat, last: string)
    requires 0 < n <= |subs| && last == Entry(subs[n - 1], n, EntryLimit(|subs|))
    ensures EntriesTo(subs, n) == EntriesTo(subs, n - 1) + [last]
  {
  }

  lemma {:induction false} EntryAt(subs: seq<Subscription>, n: nat, i: nat)
    requires i < n <= |subs|
    ensures EntriesTo(subs, n)[i] == Entry(subs[i], i + 1, EntryLimit(|subs|))
    decreases n
  {
    var last := Entry(subs[n - 1], n, EntryLimit(|subs|));
    EntriesOneMore(subs, n, last);
    if i < n - 1 {
      EntryAt(subs, n - 1, i);
      assert (EntriesTo(subs, n - 1) + [last])[i] == EntriesTo(subs, n - 1)[i];
    }
  }

  // ─── Sizes ──────────────────────────────────────────────────────────────────

  /** Lists and numbers as wide as a 64-bit program can produce: fewer than 2^63
      entries, and thresholds of at most 310 characters, which no finite float64
      printed without decimals exceeds. */
  const MAX_NUMBER: nat := 310

  predicate Renderable(s: Subscription) {
    s.range.Some? ==> |s.range.value.0| <= MAX_NUMBER && |s.range.value.1| <= MAX_NUMBER
  }

  predicate Listable(subs: seq<Subscription>) {
    |subs| < 0x8000_0000_0000_0000 && forall s | s in subs :: Renderable(s)
  }

  lemma IndexWidth(n: nat)
    requires n <= 0x8000_0000_0000_0000
    ensures 1 <= |Decimal(n)| <= 19
  {
    assert Pow10(4) == 1_0000 && Pow10(8) == 1_0000_0000 by {
      assert Pow10(1) == 10 && Pow10(2) == 100 && Pow10(3) == 1000;
      assert Pow10(5) == 1_0_0000 && Pow10(6) == 1_00_0000 && Pow10(7) == 1_000_0000;
    }
    assert Pow10(9) == 10_0000_0000 && Pow10(10) == 100_0000_0000 && Pow10(11) == 1000_0000_0000;
    assert Pow10(12) == 1_0000_0000_0000 && Pow10(13) == 10_0000_0000_0000 && Pow10(14) == 100_0000_0000_0000;
    assert Pow10(15) == 1000_0000_0000_0000 && Pow10(16) == 1_0000_0000_0000_0000;
    assert Pow10(17) == 10_0000_0000_0000_0000 && Pow10(18) == 100_0000_0000_0000_0000;
    assert Pow10(19) == 1000_0000_0000_0000_0000;
    DecimalWidth(n, 19);
  }

  lemma HeaderUnits(total: nat, page: nat)
    ensures Units(Header(total, page)) ==
            Units(HEADER_START) + |Decimal(total)| + Units(HEADER_MIDDLE) + |Decimal(page)| + Units(HEADER_END)
  {
    UnitsConcat(HEADER_START + Decimal(total) + HEADER_MIDDLE + Decimal(page), HEADER_END);
    UnitsConcat(HEADER_START + Decimal(total) + HEADER_MIDDLE, Decimal(page));
    UnitsConcat(HEADER_START + Decimal(total), HEADER_MIDDLE);
    UnitsConcat(HEADER_START, Decimal(total));
    DecimalUnits(total);
    DecimalUnits(page);
  }

  lemma HeaderGrows(total: nat, page: nat, later: nat)
    requires page <= later
    ensures Units(Header(total, page)) <= Units(Header(total, later))
  {
    HeaderUnits(total, page);
    HeaderUnits(total, later);
    DecimalGrows(page, later);
  }

  lemma HeaderBound(total: nat, page: nat)
    requires total <= 0x8000_0000_0000_0000 && page <= 0x8000_0000_0000_0000
    ensures Units(Header(total, page)) <= 100
  {
    HeaderUnits(total, page);
    IndexWidth(total);
    IndexWidth(page);
    UnitsBounds(HEADER_START);
    UnitsBounds(HEADER_MIDDLE);
    UnitsBounds(HEADER_END);
  }

  lemma TitleBound(s: Subscription, index: nat)
    requires index <= 0x8000_0000_0000_0000
    ensures Units(Title(s, index)) <= 240
  {
    var name := Truncated(s.name, NAME_LIMIT);
    var status := if s.paused then " ⏸" else "";
    TruncatedFits(s.name, NAME_LIMIT);
    IndexWidth(index);
    DecimalUnits(index);
    UnitsConcat("\n" + Decimal(index) + ". " + name + status, "\n");
    UnitsConcat("\n" + Decimal(index) + ". " + name, status);
    UnitsConcat("\n" + Decimal(index) + ". ", name);
    UnitsConcat("\n" + Decimal(index), ". ");
    UnitsConcat("\n", Decimal(index));
    UnitsBounds("\n");
    UnitsBounds(". ");
    UnitsBounds(status);
  }

  lemma RangeBound(s: Subscription)
    requires Renderable(s)
    ensures Units(RangeLine(s)) <= 4 * MAX_NUMBER + 20
  {
    UnitsBounds(RangeLine(s));
  }

  lemma UrlLineFits(s: Subscription, remaining: int)
    requires remaining >= 0
    ensures Units(UrlLine(s, remaining)) <= Units(URL_PREFIX) + remaining + 1
  {
    UnitsConcat(URL_PREFIX + Truncated(s.url, remaining), "\n");
    UnitsConcat(URL_PREFIX, Truncated(s.url, remaining));
    TruncatedFits(s.url, remaining);
    assert Units("\n") == 1;
  }

  /** An entry alone fits beside any header, whatever the name and the address. */
  lemma EntryFits(s: Subscription, index: nat, total: nat)
    requires Renderable(s) && index <= total < 0x8000_0000_0000_0000
    ensures Units(Entry(s, index, EntryLimit(total))) <= EntryLimit(total)
  {
    var top := Title(s, index) + RangeLine(s);
    HeaderBound(total, Max(1, total));
    TitleBound(s, index);
    RangeBound(s);
    UnitsConcat(Title(s, index), RangeLine(s));
    if s.url != "" {
      UnitsBounds(URL_PREFIX);
      var remaining := EntryLimit(total) - Units(top) - Units(URL_PREFIX) - 1;
      UrlLineFits(s, remaining);
      UnitsConcat(top, UrlLine(s, remaining));
    }
  }

  // ─── Pages ──────────────────────────────────────────────────────────────────

  /** What the entries of page `k` may use together. */
  function PageLimit(total: nat, k: nat): int {
    TEXT_LIMIT - Units(Header(total, k))
  }

  function Sizes(entries: seq<string>): seq<nat> {
    seq(|entries|, i requires 0 <= i < |entries| => Units(entries[i]))
  }

  function Sum(sizes: seq<nat>, a: nat, b: nat): nat
    requires a <= b <= |sizes|
  {
    if a == b then 0 else Sum(sizes, a, b - 1) + sizes[b - 1]
  }

  /** Entry `i` goes on the page that starts at `start`. */
  predicate Fits(sizes: seq<nat>, start: nat, i: nat, limit: int)
    requires start <= i < |sizes|
  {
    i == start || (i - start < PAGE_ITEMS && Sum(sizes, start, i) + sizes[i] <= limit)
  }

  /** Where the page that starts at `start` and has reached `i` ends. */
  function PageEnd(sizes: seq<nat>, start: nat, i: nat, limit: int): (end: nat)
    requires start <= i <= |sizes|
    ensures i <= end <= |sizes| && (start < |sizes| ==> start < end)
    decreases |sizes| - i
  {
    if i < |sizes| && Fits(sizes, start, i, limit) then PageEnd(sizes, start, i + 1, limit) else i
  }

  /** Where the pages from page `k` on end, the first of them starting at `start`. */
  function Ends(sizes: seq<nat>, total: nat, start: nat, k: nat): seq<nat>
    requires start <= |sizes|
    decreases |sizes| - start
  {
    if start == |sizes| then []
    else
      var end := PageEnd(sizes, start, start, PageLimit(total, k));
      [end] + Ends(sizes, total, end, k + 1)
  }

  function Range(a: nat, b: nat): seq<nat>
    requires a <= b
  {
    seq(b - a, i requires 0 <= i < b - a => a + i)
  }

  predicate Rising(start: nat, ends: seq<nat>)
    decreases |ends|
  {
    ends != [] ==> start <= ends[0] && Rising(ends[0], ends[1..])
  }

  function Cut(start: nat, ends: seq<nat>): seq<seq<nat>>
    requires Rising(start, ends)
    decreases |ends|
  {
    if ends == [] then [] else [Range(start, ends[0])] + Cut(ends[0], ends[1..])
  }

  lemma {:induction false} EndsRise(sizes: seq<nat>, total: nat, start: nat, k: nat)
    requires start <= |sizes|
    ensures Rising(start, Ends(sizes, total, start, k))
    decreases |sizes| - start
  {
    if start < |sizes| {
      EndsRise(sizes, total, PageEnd(sizes, start, start, PageLimit(total, k)), k + 1);
    }
  }

  /** The pages as lists of entry numbers; an empty list still has a page. */
  function Pages(sizes: seq<nat>): seq<seq<nat>> {
    var ends := Ends(sizes, |sizes|, 0, 1);
    EndsRise(sizes, |sizes|, 0, 1);
    if ends == [] then [[]] else Cut(0, ends)
  }

  // ─── Correctness of the split ───────────────────────────────────────────────

  function Flatten(pages: seq<seq<nat>>): seq<nat> {
    if pages == [] then [] else pages[0] + Flatten(pages[1..])
  }

  function LastEnd(start: nat, ends: seq<nat>): nat {
    if ends == [] then start else ends[|ends| - 1]
  }

  lemma {:induction false} CutFlattens(start: nat, ends: seq<nat>)
    requires Rising(start, ends)
    ensures start <= LastEnd(start, ends) && Flatten(Cut(start, ends)) == Range(start, LastEnd(start, ends))
    decreases |ends|
  {
    if ends != [] {
      CutFlattens(ends[0], ends[1..]);
      var last := LastEnd(start, ends);
      assert LastEnd(ends[0], ends[1..]) == last;
      assert Range(start, ends[0]) + Range(ends[0], last) == Range(start, last);
      assert Cut(start, ends)[1..] == Cut(ends[0], ends[1..]);
    }
  }

  lemma {:induction false} EndsReachEnd(sizes: seq<nat>, total: nat, start: nat, k: nat)
    requires start <= |sizes|
    ensures LastEnd(start, Ends(sizes, total, start, k)) == |sizes|
    decreases |sizes| - start
  {
    if start < |sizes| {
      var end := PageEnd(sizes, start, start, PageLimit(total, k));
      EndsReachEnd(sizes, total, end, k + 1);
    }
  }

  /** The pages hold all entries in order. */
  lemma PagesPartition(sizes: seq<nat>)
    ensures Flatten(Pages(sizes)) == Range(0, |sizes|)
  {
    var ends := Ends(sizes, |sizes|, 0, 1);
    EndsRise(sizes, |sizes|, 0, 1);
    EndsReachEnd(sizes, |sizes|, 0, 1);
    CutFlattens(0, ends);
    assert sizes == [] ==> Flatten([[]]) == [] + Flatten([]);
  }

  /** `ends` cuts the entries from `start` on into pages numbered from `k` that obey
      both limits. */
  predicate Legal(sizes: seq<nat>, total: nat, start: nat, k: nat, ends: seq<nat>)
    decreases |ends|
  {
    if ends == [] then start == |sizes|
    else
      && start <= ends[0] <= |sizes| && ends[0] - start <= 10
      && Sum(sizes, start, ends[0]) <= 4096 - Units(Header(total, k))
      && Legal(sizes, total, ends[0], k + 1, ends[1..])
  }

  predicate EachFits(sizes: seq<nat>, limit: int) {
    forall i | 0 <= i < |sizes| :: sizes[i] <= limit
  }

  lemma {:induction false} PageEndObeys(sizes: seq<nat>, start: nat, i: nat, limit: int)
    requires start <= i <= |sizes| && EachFits(sizes, limit) && 0 <= limit
    requires i - start <= PAGE_ITEMS && Sum(sizes, start, i) <= limit
    ensures var end := PageEnd(sizes, start, i, limit); end - start <= PAGE_ITEMS && Sum(sizes, start, end) <= limit
    decreases |sizes| - i
  {
    if i < |sizes| && Fits(sizes, start, i, limit) {
      PageEndObeys(sizes, start, i + 1, limit);
    }
  }

  /** Every page obeys both limits and is not empty. */
  lemma {:induction false} EndsAreLegal(sizes: seq<nat>, total: nat, start: nat, k: nat, limit: int)
    requires start <= |sizes| && EachFits(sizes, limit) && 0 <= limit
    requires forall j | k <= j < k + |Ends(sizes, total, start, k)| :: limit <= PageLimit(total, j)
    ensures Legal(sizes, total, start, k, Ends(sizes, total, start, k))
    decreases |sizes| - start
  {
    if start < |sizes| {
      var end := PageEnd(sizes, start, start, PageLimit(total, k));
      PageEndObeys(sizes, start, start, PageLimit(total, k));
      EndsAreLegal(sizes, total, end, k + 1, limit);
    }
  }

  // ─── Greedy is optimal ──────────────────────────────────────────────────────

  lemma {:induction false} SumSplits(sizes: seq<nat>, a: nat, b: nat, c: nat)
    requires a <= b <= c <= |sizes|
    ensures Sum(sizes, a, c) == Sum(sizes, a, b) + Sum(sizes, b, c)
  {
    if b < c {
      SumSplits(sizes, a, b, c - 1);
    }
  }

  /** A greedy page that starts no earlier than another page ends no earlier. */
  lemma {:induction false} PageReaches(sizes: seq<nat>, start: nat, i: nat, limit: int, otherStart: nat, otherEnd: nat)
    requires otherStart <= start <= i <= otherEnd <= |sizes|
    requires otherEnd - otherStart <= PAGE_ITEMS && Sum(sizes, otherStart, otherEnd) <= limit
    ensures PageEnd(sizes, start, i, limit) >= otherEnd
    decreases otherEnd - i
  {
    if i < otherEnd {
      SumSplits(sizes, otherStart, start, otherEnd);
      SumSplits(sizes, start, i + 1, otherEnd);
      PageReaches(sizes, start, i + 1, limit, otherStart, otherEnd);
    }
  }

  /** The greedy split stays ahead of every legal one, page by page. */
  lemma {:induction false} GreedyStaysAhead(sizes: seq<nat>, total: nat, start: nat, k: nat, otherStart: nat,
                                            other: seq<nat>)
    requires otherStart <= start <= |sizes| && Legal(sizes, total, otherStart, k, other)
    ensures |Ends(sizes, total, start, k)| <= |other|
    decreases |other|
  {
    if start < |sizes| {
      var end := PageEnd(sizes, start, start, PageLimit(total, k));
      if start <= other[0] {
        PageReaches(sizes, start, start, PageLimit(total, k), otherStart, other[0]);
      }
      GreedyStaysAhead(sizes, total, end, k + 1, other[0], other[1..]);
    }
  }

  /** No split into pages that obey the limits, with the header growing as it does,
      uses fewer pages. */
  lemma GreedyIsOptimal(sizes: seq<nat>, other: seq<nat>)
    requires sizes != [] && Legal(sizes, |sizes|, 0, 1, other)
    ensures |Pages(sizes)| <= |other|
  {
    GreedyStaysAhead(sizes, |sizes|, 0, 1, 0, other);
    EndsRise(sizes, |sizes|, 0, 1);
    CutLength(0, Ends(sizes, |sizes|, 0, 1));
  }

  lemma {:induction false} CutLength(start: nat, ends: seq<nat>)
    requires Rising(start, ends)
    ensures |Cut(start, ends)| == |ends|
    decreases |ends|
  {
    if ends != [] {
      CutLength(ends[0], ends[1..]);
    }
  }

  // ─── One rendered page ──────────────────────────────────────────────────────

  function PagesOf(subs: seq<Subscription>): seq<seq<nat>> {
    Pages(Sizes(Entries(subs)))
  }

  predicate Below(indices: seq<nat>, n: nat) {
    forall j | 0 <= j < |indices| :: indices[j] < n
  }

  function Body(entries: seq<string>, indices: seq<nat>): string
    requires Below(indices, |entries|)
  {
    if indices == [] then "" else Body(entries, indices[..|indices| - 1]) + entries[indices[|indices| - 1]]
  }

  lemma {:induction false} BodyUnits(entries: seq<string>, a: nat, b: nat)
    requires a <= b <= |entries|
    ensures Units(Body(entries, Range(a, b))) == Sum(Sizes(entries), a, b)
  {
    if a < b {
      assert Range(a, b)[..b - a - 1] == Range(a, b - 1);
      BodyUnits(entries, a, b - 1);
      UnitsConcat(Body(entries, Range(a, b - 1)), entries[b - 1]);
    }
  }

  lemma {:induction false} PageCount(sizes: seq<nat>, total: nat, start: nat, k: nat)
    requires start <= |sizes|
    ensures |Ends(sizes, total, start, k)| <= |sizes| - start
    decreases |sizes| - start
  {
    if start < |sizes| {
      PageCount(sizes, total, PageEnd(sizes, start, start, PageLimit(total, k)), k + 1);
    }
  }

  /** Page `p` of a legal split obeys the limits. */
  lemma {:induction false} CutPageFits(entries: seq<string>, total: nat, start: nat, k: nat, ends: seq<nat>, p: nat)
    requires Legal(Sizes(entries), total, start, k, ends) && Rising(start, ends) && p < |Cut(start, ends)|
    ensures var page := Cut(start, ends)[p];
            && Below(page, |entries|) && |page| <= PAGE_ITEMS
            && Units(Body(entries, page)) <= PageLimit(total, k + p)
    decreases |ends|
  {
    if p == 0 {
      BodyUnits(entries, start, ends[0]);
    } else {
      CutPageFits(entries, total, ends[0], k + 1, ends[1..], p - 1);
      assert Cut(start, ends)[p] == Cut(ends[0], ends[1..])[p - 1];
    }
  }

  lemma {:induction false} EndsPagesNonempty(sizes: seq<nat>, total: nat, start: nat, k: nat, p: nat)
    requires start <= |sizes| && Rising(start, Ends(sizes, total, start, k))
             && p < |Cut(start, Ends(sizes, total, start, k))|
    ensures Cut(start, Ends(sizes, total, start, k))[p] != []
    decreases |sizes| - start
  {
    if p > 0 {
      var end := PageEnd(sizes, start, start, PageLimit(total, k));
      assert Ends(sizes, total, start, k)[1..] == Ends(sizes, total, end, k + 1);
      EndsPagesNonempty(sizes, total, end, k + 1, p - 1);
    }
  }

  lemma EntriesFit(subs: seq<Subscription>)
    requires Listable(subs)
    ensures EachFits(Sizes(Entries(subs)), EntryLimit(|subs|)) && 0 <= EntryLimit(|subs|)
  {
    HeaderBound(|subs|, Max(1, |subs|));
    forall i | 0 <= i < |subs| ensures Units(Entries(subs)[i]) <= EntryLimit(|subs|) {
      EntryAt(subs, |subs|, i);
      EntryFits(subs[i], i + 1, |subs|);
    }
  }

  lemma SubsLegal(subs: seq<Subscription>)
    requires Listable(subs)
    ensures var sizes := Sizes(Entries(subs)); Legal(sizes, |sizes|, 0, 1, Ends(sizes, |sizes|, 0, 1))
  {
    var sizes := Sizes(Entries(subs));
    var total := |subs|;
    EntriesFit(subs);
    PageCount(sizes, total, 0, 1);
    forall j | 1 <= j < 1 + |Ends(sizes, total, 0, 1)| ensures EntryLimit(total) <= PageLimit(total, j) {
      HeaderGrows(total, j, Max(1, total));
    }
    EndsAreLegal(sizes, total, 0, 1, EntryLimit(total));
  }

  lemma PageIndices(sizes: seq<nat>, p: nat)
    requires p < |Pages(sizes)|
    ensures Below(Pages(sizes)[p], |sizes|)
  {
    PagesPartition(sizes);
    var page := Pages(sizes)[p];
    forall j | 0 <= j < |page| ensures page[j] < |sizes| {
      InFlatten(Pages(sizes), p, page[j]);
      assert page[j] in Range(0, |sizes|);
    }
  }

  lemma {:induction false} InFlatten(pages: seq<seq<nat>>, p: nat, i: nat)
    requires p < |pages| && i in pages[p]
    ensures i in Flatten(pages)
  {
    if p > 0 {
      InFlatten(pages[1..], p - 1, i);
    }
  }

  function PageText(subs: seq<Subscription>, page: nat): string
    requires 1 <= page <= |PagesOf(subs)|
  {
    PageIndices(Sizes(Entries(subs)), page - 1);
    Header(|subs|, page) + Body(Entries(subs), PagesOf(subs)[page - 1])
  }

  lemma PageObeys(entries: seq<string>, p: nat)
    requires var sizes := Sizes(entries); Legal(sizes, |sizes|, 0, 1, Ends(sizes, |sizes|, 0, 1))
    requires entries != [] && p < |Pages(Sizes(entries))|
    ensures var page := Pages(Sizes(entries))[p];
            && Below(page, |entries|) && 0 < |page| <= PAGE_ITEMS
            && Units(Body(entries, page)) <= PageLimit(|entries|, p + 1)
  {
    var sizes := Sizes(entries);
    EndsRise(sizes, |sizes|, 0, 1);
    CutPageFits(entries, |entries|, 0, 1, Ends(sizes, |sizes|, 0, 1), p);
    EndsPagesNonempty(sizes, |sizes|, 0, 1, p);
  }

  lemma TextFits(total: nat, k: nat, body: string)
    requires Units(body) <= PageLimit(total, k)
    ensures Units(Header(total, k) + body) <= TEXT_LIMIT
  {
    UnitsConcat(Header(total, k), body);
  }

  lemma EmptyPage()
    ensures Pages([]) == [[]] && Units("") <= PageLimit(0, 1)
  {
    HeaderBound(0, 1);
  }

  lemma BodyObeys(subs: seq<Subscription>, p: nat)
    requires Listable(subs) && p < |PagesOf(subs)|
    ensures var page := PagesOf(subs)[p];
            && Below(page, |Entries(subs)|) && |page| <= PAGE_ITEMS && (subs != [] ==> page != [])
            && Units(Body(Entries(subs), page)) <= PageLimit(|subs|, p + 1)
  {
    if subs == [] {
      EmptyPage();
      assert Sizes(Entries(subs)) == [];
    } else {
      SubsLegal(subs);
      PageObeys(Entries(subs), p);
    }
  }

  /** Every page of every list fits into a Telegram message: at most ten entries,
      none only for an empty list, and at most 4096 units. */
  lemma PageFitsMessage(subs: seq<Subscription>, page: nat)
    requires Listable(subs) && 1 <= page <= |PagesOf(subs)|
    ensures Units(PageText(subs, page)) <= 4096
    ensures |PagesOf(subs)[page - 1]| <= 10 && (subs != [] ==> PagesOf(subs)[page - 1] != [])
  {
    BodyObeys(subs, page - 1);
    TextFits(|subs|, page, Body(Entries(subs), PagesOf(subs)[page - 1]));
  }

  // ─── Buttons ────────────────────────────────────────────────────────────────

  datatype Button =
    | EditSub(id: string)
    | PauseSub(id: string)
    | ResumeSub(id: string)
    | HistorySub(id: string)
    | CheckSub(id: string)
    | DeleteSub(id: string)
    | ToPage(page: nat)

  function SubRows(s: Subscription): seq<seq<Button>> {
    [ [EditSub(s.id), if s.paused then ResumeSub(s.id) else PauseSub(s.id)],
      [HistorySub(s.id), CheckSub(s.id)],
      [DeleteSub(s.id)] ]
  }

  function Rows(subs: seq<Subscription>, indices: seq<nat>): seq<seq<Button>>
    requires Below(indices, |subs|)
  {
    if indices == [] then [] else Rows(subs, indices[..|indices| - 1]) + SubRows(subs[indices[|indices| - 1]])
  }

  function NavRow(page: nat, count: nat): seq<Button> {
    (if page > 1 then [ToPage(page - 1)] else []) + (if page < count then [ToPage(page + 1)] else [])
  }

  function Keyboard(subs: seq<Subscription>, page: nat): seq<seq<Button>>
    requires 1 <= page <= |PagesOf(subs)|
  {
    PageIndices(Sizes(Entries(subs)), page - 1);
    var nav := NavRow(page, |PagesOf(subs)|);
    Rows(subs, PagesOf(subs)[page - 1]) + if nav == [] then [] else [nav]
  }

  /** The page shown when `page` is asked for. */
  function Clamped(page: int, count: nat): (shown: nat)
    requires count >= 1
    ensures 1 <= shown <= count && (1 <= page <= count ==> shown == page)
    ensures (page < 1 ==> shown == 1) && (page > count ==> shown == count)
  {
    if page < 1 then 1 else if page > count then count else page
  }

  // ─── The program ────────────────────────────────────────────────────────────

  lemma {:induction false} CutAppend(start: nat, ends: seq<nat>, e: nat)
    requires Rising(start, ends) && LastEnd(start, ends) <= e
    ensures Rising(start, ends + [e])
    ensures start <= LastEnd(start, ends)
            && Cut(start, ends + [e]) == Cut(start, ends) + [Range(LastEnd(start, ends), e)]
    decreases |ends|
  {
    if ends == [] {
      assert ends + [e] == [e];
    } else {
      assert (ends + [e])[1..] == ends[1..] + [e];
      CutAppend(ends[0], ends[1..], e);
    }
  }

  /** The loop stands at entry `i`: `pages` are closed, and the open page starts at
      `start`. `ends` is where the closed pages end. */
  ghost predicate Filling(sizes: seq<nat>, i: nat, pages: seq<seq<nat>>, start: nat, ends: seq<nat>) {
    && start <= i <= |sizes| && i - start <= PAGE_ITEMS
    && Rising(0, ends) && LastEnd(0, ends) == start && pages == Cut(0, ends) && |ends| == |pages|
    && var limit := PageLimit(|sizes|, |pages| + 1);
    && PageEnd(sizes, start, start, limit) == PageEnd(sizes, start, i, limit)
    && Ends(sizes, |sizes|, 0, 1) == ends + Ends(sizes, |sizes|, start, |pages| + 1)
  }

  lemma TakesEntry(sizes: seq<nat>, i: nat, pages: seq<seq<nat>>, start: nat, ends: seq<nat>)
    requires Filling(sizes, i, pages, start, ends) && i < |sizes|
    requires Fits(sizes, start, i, PageLimit(|sizes|, |pages| + 1))
    ensures Filling(sizes, i + 1, pages, start, ends) && Range(start, i + 1) == Range(start, i) + [i]
  {
  }

  lemma ClosesPage(sizes: seq<nat>, i: nat, pages: seq<seq<nat>>, start: nat, ends: seq<nat>)
    requires Filling(sizes, i, pages, start, ends) && start < i
    requires i < |sizes| ==> !Fits(sizes, start, i, PageLimit(|sizes|, |pages| + 1))
    ensures Filling(sizes, i, pages + [Range(start, i)], i, ends + [i])
  {
    CutAppend(0, ends, i);
    EndsThere(sizes, i, pages, start, ends);
  }

  lemma EndsThere(sizes: seq<nat>, i: nat, pages: seq<seq<nat>>, start: nat, ends: seq<nat>)
    requires Filling(sizes, i, pages, start, ends) && start < i
    requires i < |sizes| ==> !Fits(sizes, start, i, PageLimit(|sizes|, |pages| + 1))
    ensures Ends(sizes, |sizes|, 0, 1) == (ends + [i]) + Ends(sizes, |sizes|, i, |pages| + 2)
  {
    PageEndsHere(sizes, start, i, |pages| + 1);
    Regrouped(ends, i, Ends(sizes, |sizes|, i, |pages| + 2));
  }

  /** Page `k` ends at `i` if nothing in between ends it and entry `i` does not fit. */
  lemma PageEndsHere(sizes: seq<nat>, start: nat, i: nat, k: nat)
    requires start < i <= |sizes| && PageEnd(sizes, start, start, PageLimit(|sizes|, k))
                                     == PageEnd(sizes, start, i, PageLimit(|sizes|, k))
    requires i < |sizes| ==> !Fits(sizes, start, i, PageLimit(|sizes|, k))
    ensures Ends(sizes, |sizes|, start, k) == [i] + Ends(sizes, |sizes|, i, k + 1)
  {
    assert PageEnd(sizes, start, i, PageLimit(|sizes|, k)) == i;
  }

  lemma Regrouped(before: seq<nat>, i: nat, after: seq<nat>)
    ensures before + ([i] + after) == (before + [i]) + after
  {
  }

  lemma NothingFilled(sizes: seq<nat>)
    ensures Filling(sizes, 0, [], 0, [])
  {
    assert [] + Ends(sizes, |sizes|, 0, 1) == Ends(sizes, |sizes|, 0, 1);
  }

  lemma LastPage(sizes: seq<nat>, pages: seq<seq<nat>>, start: nat, ends: seq<nat>)
    requires Filling(sizes, |sizes|, pages, start, ends) && (start == |sizes| ==> sizes == [])
    ensures pages + [Range(start, |sizes|)] == Pages(sizes) && (start == |sizes| ==> pages == [])
  {
    if sizes == [] {
      EmptyPage();
      assert ends + [] == [];
      assert Range(0, 0) == [];
    } else {
      ClosesPage(sizes, |sizes|, pages, start, ends);
      assert (ends + [|sizes|]) + [] == ends + [|sizes|];
    }
  }

  /** The loop's test for closing the page. */
  lemma ClosesIffFull(sizes: seq<nat>, i: nat, start: nat, k: nat, textUnits: int, count: nat)
    requires start <= i < |sizes| && count == i - start
    requires TEXT_LIMIT - textUnits == PageLimit(|sizes|, k) - Sum(sizes, start, i)
    ensures count > 0 && (count == PAGE_ITEMS || textUnits + sizes[i] > TEXT_LIMIT) ==>
              !Fits(sizes, start, i, PageLimit(|sizes|, k))
    ensures count <= PAGE_ITEMS && !(count > 0 && (count == PAGE_ITEMS || textUnits + sizes[i] > TEXT_LIMIT)) ==>
              Fits(sizes, start, i, PageLimit(|sizes|, k))
  {
  }

  /** What the loop's variables are at entry `i`. */
  ghost predicate AtEntry(sizes: seq<nat>, i: nat, pages: seq<seq<nat>>, current: seq<nat>, textUnits: int,
                          start: nat, ends: seq<nat>)
  {
    && Filling(sizes, i, pages, start, ends) && (start == i ==> i == 0)
    && current == Range(start, i)
    && TEXT_LIMIT - textUnits == PageLimit(|sizes|, |pages| + 1) - Sum(sizes, start, i)
  }

  lemma StartsAtEntry(sizes: seq<nat>)
    ensures AtEntry(sizes, 0, [], [], Units(Header(|sizes|, 1)), 0, [])
  {
    NothingFilled(sizes);
    assert Range(0, 0) == [];
  }

  /** Entry `i` joins the open page if it fits, and starts a new one otherwise. */
  lemma NextEntry(sizes: seq<nat>, i: nat, pages: seq<seq<nat>>, current: seq<nat>, textUnits: int, start: nat,
                  ends: seq<nat>)
    requires AtEntry(sizes, i, pages, current, textUnits, start, ends) && i < |sizes|
    ensures var close := |current| > 0 && (|current| == PAGE_ITEMS || textUnits + sizes[i] > TEXT_LIMIT);
            if close then AtEntry(sizes, i + 1, pages + [current], [i],
                                  Units(Header(|sizes|, |pages| + 2)) + sizes[i], i, ends + [i])
            else AtEntry(sizes, i + 1, pages, current + [i], textUnits + sizes[i], start, ends)
  {
    ClosesIffFull(sizes, i, start, |pages| + 1, textUnits, |current|);
    if |current| > 0 && (|current| == PAGE_ITEMS || textUnits + sizes[i] > TEXT_LIMIT) {
      ClosesPage(sizes, i, pages, start, ends);
      TakesEntry(sizes, i, pages + [current], i, ends + [i]);
      assert Range(i, i) == [] && Range(i, i + 1) == [i];
    } else {
      TakesEntry(sizes, i, pages, start, ends);
    }
  }

  /** What the loop's variables are at entry `i`, wherever its page started. */
  ghost predicate Stands(sizes: seq<nat>, i: nat, pages: seq<seq<nat>>, current: seq<nat>, textUnits: int) {
    exists start, ends :: AtEntry(sizes, i, pages, current, textUnits, start, ends)
  }

  /** The loop's test for closing the page. */
  predicate Full(current: seq<nat>, textUnits: int, units: nat) {
    |current| > 0 && (|current| == PAGE_ITEMS || textUnits + units > TEXT_LIMIT)
  }

  lemma StandsNext(sizes: seq<nat>, i: nat, pages: seq<seq<nat>>, current: seq<nat>, textUnits: int)
    requires Stands(sizes, i, pages, current, textUnits) && i < |sizes|
    ensures if Full(current, textUnits, sizes[i])
            then Stands(sizes, i + 1, pages + [current], [i], Units(Header(|sizes|, |pages| + 2)) + sizes[i])
            else Stands(sizes, i + 1, pages, current + [i], textUnits + sizes[i])
  {
    var start, ends :| AtEntry(sizes, i, pages, current, textUnits, start, ends);
    NextEntry(sizes, i, pages, current, textUnits, start, ends);
  }

  lemma LoopEnds(sizes: seq<nat>, pages: seq<seq<nat>>, current: seq<nat>, textUnits: int)
    requires Stands(sizes, |sizes|, pages, current, textUnits)
    ensures Pages(sizes) == if |current| > 0 || |pages| == 0 then pages + [current] else pages
  {
    var start, ends :| AtEntry(sizes, |sizes|, pages, current, textUnits, start, ends);
    LastPage(sizes, pages, start, ends);
  }

  /** The loop over the entries, from their sizes and the header's. */
  method CutPages(entries: seq<string>) returns (pages: seq<seq<nat>>)
    ensures pages == Pages(Sizes(entries))
  {
    ghost var sizes := Sizes(entries);
    pages := [];
    var current: seq<nat> := [];
    var textUnits := Units(Header(|entries|, 1));
    StartsAtEntry(sizes);
    assert Stands(sizes, 0, pages, current, textUnits);
    for i := 0 to |entries|
      invariant Stands(sizes, i, pages, current, textUnits)
    {
      var units := Units(entries[i]);
      StandsNext(sizes, i, pages, current, textUnits);
      if |current| > 0 && (|current| == PAGE_ITEMS || textUnits + units > TEXT_LIMIT) {
        pages := pages + [current];
        current := [];
        textUnits := Units(Header(|entries|, |pages| + 1));
        assert current + [i] == [i];
      }
      current := current + [i];
      textUnits := textUnits + units;
    }
    LoopEnds(sizes, pages, current, textUnits);
    if |current| > 0 || |pages| == 0 {
      pages := pages + [current];
    }
  }

  lemma SameBudget(total: nat, budget: nat)
    requires budget == Units(Header(total, if total > 1 then total else 1))
    ensures TEXT_LIMIT - budget == EntryLimit(total)
  {
  }

  method MakeEntries(subs: seq<Subscription>) returns (entries: seq<string>)
    ensures entries == Entries(subs)
  {
    entries := [];
    var headerBudget := Units(Header(|subs|, if |subs| > 1 then |subs| else 1));
    SameBudget(|subs|, headerBudget);
    for i := 0 to |subs|
      invariant entries == EntriesTo(subs, i)
    {
      entries := entries + [Entry(subs[i], i + 1, TEXT_LIMIT - headerBudget)];
    }
  }

  /** The text and the buttons of the entries on one page. */
  method Render(subs: seq<Subscription>, entries: seq<string>, indices: seq<nat>, header: string)
    returns (text: string, rows: seq<seq<Button>>)
    requires |entries| == |subs| && Below(indices, |subs|)
    ensures text == header + Body(entries, indices) && rows == Rows(subs, indices)
  {
    text, rows := header, [];
    for j := 0 to |indices|
      invariant text == header + Body(entries, indices[..j]) && rows == Rows(subs, indices[..j])
    {
      assert indices[..j + 1][..j] == indices[..j];
      var s := subs[indices[j]];
      text := text + entries[indices[j]];
      rows := rows + [[EditSub(s.id), if s.paused then ResumeSub(s.id) else PauseSub(s.id)],
                      [HistorySub(s.id), CheckSub(s.id)], [DeleteSub(s.id)]];
    }
    assert indices[..|indices|] == indices;
  }

  method BuildMyListPage(subs: seq<Subscription>, page: int)
    returns (text: string, keyboard: seq<seq<Button>>, actual: nat)
    ensures actual == Clamped(page, |PagesOf(subs)|) && 1 <= actual <= |PagesOf(subs)|
    ensures text == PageText(subs, actual) && keyboard == Keyboard(subs, actual)
  {
    var entries := MakeEntries(subs);
    var pages := CutPages(entries);
    actual := if page < 1 then 1 else page;
    if actual > |pages| {
      actual := |pages|;
    }
    PageIndices(Sizes(entries), actual - 1);
    text, keyboard := Render(subs, entries, pages[actual - 1], Header(|subs|, actual));
    if actual > 1 || actual < |pages| {
      var nav := [];
      if actual > 1 {
        nav := nav + [ToPage(actual - 1)];
      }
      if actual < |pages| {
        nav := nav + [ToPage(actual + 1)];
      }
      assert nav == NavRow(actual, |pages|);
      keyboard := keyboard + [nav];
    }
  }

  // ─── Navigation ─────────────────────────────────────────────────────────────

  /** The page shown after pressing a button of page `page`, if it turns pages. */
  ghost predicate Turns(subs: seq<Subscription>, page: nat, next: nat)
    requires 1 <= page <= |PagesOf(subs)|
  {
    TurnsIn(Keyboard(subs, page), |PagesOf(subs)|, next)
  }

  /** Some button of the keyboard asks for a page, and that shows `next`. */
  ghost predicate TurnsIn(keyboard: seq<seq<Button>>, count: nat, next: nat)
    requires count >= 1
  {
    exists r, b :: 0 <= r < |keyboard| && 0 <= b < |keyboard[r]|
                   && keyboard[r][b].ToPage? && next == Clamped(keyboard[r][b].page, count)
  }

  /** Below rows that turn no pages, the last row turns to the neighbours. */
  lemma NavTurns(rows: seq<seq<Button>>, page: nat, count: nat, next: nat)
    requires 1 <= page <= count
    requires forall r, b | 0 <= r < |rows| && 0 <= b < |rows[r]| :: !rows[r][b].ToPage?
    ensures var nav := NavRow(page, count);
            TurnsIn(rows + (if nav == [] then [] else [nav]), count, next) <==>
              1 <= next <= count && (next == page + 1 || next + 1 == page)
  {
    var nav := NavRow(page, count);
    var keyboard := rows + if nav == [] then [] else [nav];
    assert nav != [] ==> keyboard[|rows|] == nav;
    assert forall r | 0 <= r < |rows| :: keyboard[r] == rows[r];
    if next + 1 == page && 1 <= next {
      assert keyboard[|rows|][0] == ToPage(next);
    }
    if next == page + 1 <= count {
      assert keyboard[|rows|][|nav| - 1] == ToPage(next);
    }
  }

  /** Pages reached one after the other by pressing buttons. */
  ghost predicate Walk(subs: seq<Subscription>, pages: seq<nat>) {
    forall i | 0 <= i && i + 1 < |pages| ::
      1 <= pages[i] <= |PagesOf(subs)| && Turns(subs, pages[i], pages[i + 1])
  }

  lemma {:induction false} RowsTurnNoPages(subs: seq<Subscription>, indices: seq<nat>, r: nat, b: nat)
    requires Below(indices, |subs|) && r < |Rows(subs, indices)| && b < |Rows(subs, indices)[r]|
    ensures !Rows(subs, indices)[r][b].ToPage?
  {
    var before := Rows(subs, indices[..|indices| - 1]);
    if r < |before| {
      RowsTurnNoPages(subs, indices[..|indices| - 1], r, b);
    }
  }

  /** The buttons turn exactly to the neighbouring pages that exist. */
  lemma TurnsToNeighbours(subs: seq<Subscription>, page: nat, next: nat)
    requires 1 <= page <= |PagesOf(subs)|
    ensures Turns(subs, page, next) <==> 1 <= next <= |PagesOf(subs)| && (next == page + 1 || next + 1 == page)
  {
    PageIndices(Sizes(Entries(subs)), page - 1);
    var indices := PagesOf(subs)[page - 1];
    forall r, b | 0 <= r < |Rows(subs, indices)| && 0 <= b < |Rows(subs, indices)[r]|
      ensures !Rows(subs, indices)[r][b].ToPage?
    {
      RowsTurnNoPages(subs, indices, r, b);
    }
    NavTurns(Rows(subs, indices), page, |PagesOf(subs)|, next);
  }

  /** From the first page the buttons lead to every page, one after the other. */
  lemma EveryPageReachable(subs: seq<Subscription>, target: nat)
    requires 1 <= target <= |PagesOf(subs)|
    ensures var pages := Range(1, target + 1);
            Walk(subs, pages) && pages[0] == 1 && pages[|pages| - 1] == target
  {
    var pages := Range(1, target + 1);
    forall i | 0 <= i && i + 1 < |pages|
      ensures 1 <= pages[i] <= |PagesOf(subs)| && Turns(subs, pages[i], pages[i + 1])
    {
      TurnsToNeighbours(subs, i + 1, i + 2);
    }
  }
}
