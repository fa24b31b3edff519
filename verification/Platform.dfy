/** Wildberries URLs: recognition, the canonical form, and the Scheduler's check. */
module Platform {
  import opened Wrappers

  // ─── Recognition and normalization ──────────────────────────────────────────

  predicate IsDigit(c: char) {
    '0' <= c <= '9'
  }

  /** Lower case as far as it can produce the ASCII letters of the host name. */
  function Lower(c: char): char {
    if 'A' <= c <= 'Z' then (c as int + 32) as char
    else if c == '\U{0130}' then 'i'
    else c
  }

  predicate OccursAt(s: string, word: string, i: nat) {
    i + |word| <= |s| && forall k | 0 <= k < |word| :: s[i + k] == word[k]
  }

  const HOST := "wildberries.ru"

  /** Does the lower-cased text contain the host name? */
  predicate Detect(rawURL: string) {
    var lower := LowerAll(rawURL);
    exists i | 0 <= i <= |lower| :: OccursAt(lower, HOST, i)
  }

  function LowerAll(s: string): string {
    seq(|s|, k requires 0 <= k < |s| => Lower(s[k]))
  }

  const CATALOG := "wildberries.ru/catalog/"
  const PREFIX := "https://www.wildberries.ru/catalog/"
  const SUFFIX := "/detail.aspx"

  /** The longest run of digits `s` starts with. */
  function Digits(s: string): (d: string)
    ensures d <= s && forall k | 0 <= k < |d| :: IsDigit(d[k])
    ensures |d| < |s| ==> !IsDigit(s[|d|])
  {
    if s == "" || !IsDigit(s[0]) then "" else [s[0]] + Digits(s[1..])
  }

  /** A match of `wildberries\.ru/catalog/(\d+)` starting at `i`. */
  predicate MatchesAt(s: string, i: nat) {
    OccursAt(s, CATALOG, i) && i + |CATALOG| < |s| && IsDigit(s[i + |CATALOG|])
  }

  /** The digits of the first match at or after `i`. */
  function FindProductId(s: string, i: nat): Option<string>
    requires i <= |s|
    decreases |s| - i
  {
    if MatchesAt(s, i) then Some(Digits(s[i + |CATALOG|..]))
    else if i == |s| then None
    else FindProductId(s, i + 1)
  }

  function NormalizeWB(rawURL: string): Option<string> {
    match FindProductId(rawURL, 0)
    case None => None
    case Some(id) => Some(PREFIX + id + SUFFIX)
  }

  // ─── The Scheduler's acceptance test ────────────────────────────────────────

  predicate HasHost(url: string, host: string) {
    OccursAt(url, "https://" + host + "/", 0)
  }

  predicate ValidWBIdentity(url: string, platform: string) {
    && platform == "wb"
    && (HasHost(url, "www.wildberries.ru") || HasHost(url, HOST))
    && NormalizeWB(url) == Some(url)
  }

  // ─── Properties ─────────────────────────────────────────────────────────────

  predicate ProductId(id: string) {
    id != "" && forall k | 0 <= k < |id| :: IsDigit(id[k])
  }

  /** The only URLs the services exchange. */
  ghost predicate Canonical(url: string) {
    exists id :: ProductId(id) && url == "https://www.wildberries.ru/catalog/" + id + "/detail.aspx"
  }

  /** The search finds the leftmost match and all of its digits. */
  lemma FindsLeftmost(s: string, i: nat)
    requires i <= |s|
    ensures var r := FindProductId(s, i);
            if r.None? then forall k | i <= k <= |s| :: !MatchesAt(s, k)
            else exists k :: i <= k <= |s| && MatchesAt(s, k) && r.value == Digits(s[k + |CATALOG|..])
                             && forall j | i <= j < k :: !MatchesAt(s, j)
  {
    var k := LeftmostPlace(s, i);
    SkipsTo(s, i, k);
    DecidedThere(s, k);
  }

  /** The first place from `i` on that matches, or the end. */
  lemma {:induction false} LeftmostPlace(s: string, i: nat) returns (k: nat)
    requires i <= |s|
    ensures i <= k <= |s| && (MatchesAt(s, k) || k == |s|) && forall j | i <= j < k :: !MatchesAt(s, j)
    decreases |s| - i
  {
    k := i;
    if !MatchesAt(s, i) && i < |s| {
      k := LeftmostPlace(s, i + 1);
    }
  }

  lemma DecidedThere(s: string, k: nat)
    requires k <= |s| && (MatchesAt(s, k) || k == |s|)
    ensures FindProductId(s, k) == if MatchesAt(s, k) then Some(Digits(s[k + |CATALOG|..])) else None
  {
  }

  lemma NormalizedIsCanonical(rawURL: string)
    ensures var r := NormalizeWB(rawURL); r.Some? ==> Canonical(r.value)
  {
    var r := FindProductId(rawURL, 0);
    FindsLeftmost(rawURL, 0);
    if r.Some? {
      var k :| 0 <= k <= |rawURL| && MatchesAt(rawURL, k) && r.value == Digits(rawURL[k + |CATALOG|..]);
      var rest := rawURL[k + |CATALOG|..];
      assert rest[0] == rawURL[k + |CATALOG|];
      assert ProductId(r.value);
    }
  }

  /** The host name first matches right after `https://www.`. */
  lemma FirstMatch(id: string)
    requires ProductId(id)
    ensures var url := PREFIX + id + SUFFIX;
            MatchesAt(url, 12) && forall j | 0 <= j < 12 :: !MatchesAt(url, j)
  {
    var url := PREFIX + id + SUFFIX;
    forall k | 0 <= k < |CATALOG| ensures url[12 + k] == CATALOG[k] {
      assert PREFIX[12..] == CATALOG;
      assert PREFIX[12..][k] == PREFIX[12 + k];
    }
    assert url[12 + |CATALOG|] == id[0];
    forall j | 0 <= j < 12 ensures !MatchesAt(url, j) {
      assert url[j] == PREFIX[j] && url[j + 1] == PREFIX[j + 1];
      assert CATALOG[0] == 'w' && CATALOG[1] == 'i';
      assert url[j + 0] != CATALOG[0] || url[j + 1] != CATALOG[1];
    }
  }

  lemma {:induction false} DigitsOf(id: string, rest: string)
    requires forall k | 0 <= k < |id| :: IsDigit(id[k])
    requires rest != "" && !IsDigit(rest[0])
    ensures Digits(id + rest) == id
  {
    if id == "" {
      assert id + rest == rest;
    } else {
      assert (id + rest)[1..] == id[1..] + rest;
      DigitsOf(id[1..], rest);
    }
  }

  lemma PassedOver(s: string, i: nat)
    requires i < |s| && !MatchesAt(s, i)
    ensures FindProductId(s, i) == FindProductId(s, i + 1)
  {
  }

  /** Places without a match are passed over. */
  lemma {:induction false} SkipsTo(s: string, i: nat, k: nat)
    requires i <= k <= |s| && forall j | i <= j < k :: !MatchesAt(s, j)
    ensures FindProductId(s, i) == FindProductId(s, k)
    decreases k
  {
    if i < k {
      SkipsTo(s, i, k - 1);
      PassedOver(s, k - 1);
    }
  }

  lemma IdOfCanonical(id: string)
    requires ProductId(id)
    ensures FindProductId(PREFIX + id + SUFFIX, 0) == Some(id)
  {
    var url := PREFIX + id + SUFFIX;
    FirstMatch(id);
    SkipsTo(url, 0, 12);
    RestOfCanonical(id);
    DigitsOf(id, SUFFIX);
  }

  lemma RestOfCanonical(id: string)
    ensures |PREFIX| == 12 + |CATALOG| && (PREFIX + id + SUFFIX)[|PREFIX|..] == id + SUFFIX
  {
  }

  lemma CanonicalIsFixed(url: string)
    requires Canonical(url)
    ensures NormalizeWB(url) == Some(url)
  {
    var id :| ProductId(id) && url == PREFIX + id + SUFFIX;
    IdOfCanonical(id);
  }

  /** Normalizing twice changes nothing. */
  lemma NormalizeIdempotent(rawURL: string)
    ensures var r := NormalizeWB(rawURL); r.Some? ==> NormalizeWB(r.value) == r
  {
    NormalizedIsCanonical(rawURL);
    if NormalizeWB(rawURL).Some? {
      CanonicalIsFixed(NormalizeWB(rawURL).value);
    }
  }

  lemma CanonicalStart(url: string)
    requires Canonical(url)
    ensures PREFIX <= url
  {
  }

  lemma StartOccurs(url: string, start: string)
    requires PREFIX <= url && start <= PREFIX
    ensures OccursAt(url, start, 0)
  {
  }

  lemma CanonicalHost(url: string)
    requires Canonical(url)
    ensures HasHost(url, "www.wildberries.ru")
  {
    CanonicalStart(url);
    var start := "https://" + "www.wildberries.ru" + "/";
    assert start == "https://www.wildberries.ru/" && start <= PREFIX;
    StartOccurs(url, start);
  }

  /** The Scheduler accepts exactly the canonical URLs: its second host never decides anything. */
  lemma AcceptsExactlyCanonical(url: string)
    ensures ValidWBIdentity(url, "wb") <==> Canonical(url)
  {
    if Canonical(url) {
      CanonicalIsFixed(url);
      CanonicalHost(url);
    } else if NormalizeWB(url) == Some(url) {
      NormalizedIsCanonical(url);
      assert false;
    }
  }

  lemma CanonicalIsDetected(url: string)
    requires Canonical(url)
    ensures Detect(url)
  {
    CanonicalStart(url);
    HostInPrefix();
    var lower := LowerAll(url);
    forall k | 0 <= k < |HOST| ensures lower[12 + k] == HOST[k] {
      assert url[12 + k] == PREFIX[12 + k];
    }
    assert OccursAt(lower, HOST, 12);
  }

  /** The prefix names the host, in lower case. */
  lemma HostInPrefix()
    ensures forall k | 0 <= k < |HOST| :: Lower(PREFIX[12 + k]) == HOST[k]
  {
  }

  /** A character that lower case turns into `letter`. */
  predicate Spells(c: char, letter: char) {
    c == letter || ('a' <= letter <= 'z' && c as int == letter as int - 32) || (letter == 'i' && c == '\U{0130}')
  }

  /** Detection looks for the host name in any mix of cases, anywhere in the text. */
  lemma DetectsHostName(rawURL: string)
    ensures Detect(rawURL) <==>
              exists i: nat :: i + 14 <= |rawURL| && SpellsAt(rawURL, "wildberries.ru", i)
  {
    var lower := LowerAll(rawURL);
    forall i: nat | i + 14 <= |rawURL| ensures OccursAt(lower, HOST, i) <==> SpellsAt(rawURL, HOST, i) {
      assert forall k | 0 <= k < 14 :: 'a' <= HOST[k] <= 'z' || HOST[k] == '.';
      assert forall k | 0 <= k < 14 :: lower[i + k] == HOST[k] <==> Spells(rawURL[i + k], HOST[k]);
    }
  }

  predicate SpellsAt(s: string, word: string, i: nat)
    requires i + |word| <= |s|
  {
    forall k | 0 <= k < |word| :: Spells(s[i + k], word[k])
  }
}
