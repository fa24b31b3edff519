/** The "my products" list: text measured in UTF-16 code units as Telegram does, cut
    into pages of at most ten entries and 4096 units. */
module Paging {
  import opened Wrappers

  const PAGE_ITEMS: nat := 10
  const TEXT_LIMIT: int := 4096
  const NAME_LIMIT: int := 200

  // ─── UTF-16 units ───────────────────────────────────────────────────────────

  /** Section 2.1 of RFC 2781: characters above U+FFFF take a surrogate pair. */
  function UnitsOf(c: char): nat {
    if c as int > 0xffff then 2 else 1
  }

  function Units(s: string): nat {
    if s == "" then 0 else Units(s[..|s| - 1]) + UnitsOf(s[|s| - 1])
  }

  lemma {:induction false} UnitsConcat(s: string, t: string)
    ensures Units(s + t) == Units(s) + Units(t)
  {
    if t == "" {
      assert s + t == s;
    } else {
      assert (s + t)[..|s + t| - 1] == s + t[..|t| - 1];
      UnitsConcat(s, t[..|t| - 1]);
    }
  }

  lemma {:induction false} UnitsBounds(s: string)
    ensures |s| <= Units(s) <= 2 * |s|
  {
    if s != "" {
      UnitsBounds(s[..|s| - 1]);
    }
  }

  lemma {:induction false} UnitsPrefix(s: string, k: nat)
    requires k <= |s|
    ensures Units(s[..k]) <= Units(s)
  {
    assert s == s[..k] + s[k..];
    UnitsConcat(s[..k], s[k..]);
  }

  // ─── Truncation ─────────────────────────────────────────────────────────────

  const ELLIPSIS: string := "…"

  /** How many characters fit within `limit` units. */
  function FitLength(s: string, limit: int, k: nat): (n: nat)
    requires k <= |s|
    ensures k <= n <= |s|
    decreases |s| - k
  {
    if k < |s| && Units(s[..k]) + UnitsOf(s[k]) <= limit then FitLength(s, limit, k + 1) else k
  }

  function Truncated(s: string, maxUnits: int): string {
    if maxUnits <= 0 then ""
    else if Units(s) <= maxUnits then s
    else s[..FitLength(s, maxUnits - 1, 0)] + ELLIPSIS
  }

  lemma NextUnits(s: string, k: nat)
    requires k < |s|
    ensures Units(s[..k + 1]) == Units(s[..k]) + UnitsOf(s[k])
  {
    assert s[..k + 1][..k] == s[..k];
  }

  lemma {:induction false} FitLengthIsLongest(s: string, limit: int, k: nat)
    requires k <= |s| && Units(s[..k]) <= limit
    ensures var n := FitLength(s, limit, k);
            Units(s[..n]) <= limit && forall m | n < m <= |s| :: Units(s[..m]) > limit
    decreases |s| - k
  {
    if k < |s| {
      NextUnits(s, k);
      if Units(s[..k]) + UnitsOf(s[k]) <= limit {
        FitLengthIsLongest(s, limit, k + 1);
      } else {
        forall m | k < m <= |s| ensures Units(s[..m]) > limit {
          UnitsPrefix(s[..m], k + 1);
          assert s[..m][..k + 1] == s[..k + 1];
        }
      }
    }
  }

  lemma EllipsisUnits()
    ensures Units(ELLIPSIS) == 1
  {
    assert ELLIPSIS[..0] == "";
  }

  /** `n` characters and the ellipsis fit, and one more would not. */
  ghost predicate LongestCut(s: string, maxUnits: int, n: nat) {
    && n < |s| && Units(s[..n]) + 1 <= maxUnits
    && forall m | n < m <= |s| :: Units(s[..m]) + 1 > maxUnits
  }

  lemma FitLengthIsCut(s: string, maxUnits: int)
    requires 0 < maxUnits < Units(s)
    ensures LongestCut(s, maxUnits, FitLength(s, maxUnits - 1, 0))
  {
    FitLengthIsLongest(s, maxUnits - 1, 0);
    assert s[..|s|] == s;
  }

  /** The result fits, and is the text itself or its longest prefix that leaves room
      for the ellipsis; a surrogate pair is never split. */
  lemma TruncatedFits(s: string, maxUnits: int)
    ensures maxUnits >= 0 ==> Units(Truncated(s, maxUnits)) <= maxUnits
    ensures 0 < maxUnits && Units(s) <= maxUnits ==> Truncated(s, maxUnits) == s
    ensures 0 < maxUnits < Units(s) ==>
              exists n: nat :: LongestCut(s, maxUnits, n) && Truncated(s, maxUnits) == s[..n] + "…"
    ensures maxUnits <= 0 ==> Truncated(s, maxUnits) == ""
  {
    if 0 < maxUnits < Units(s) {
      var n := FitLength(s, maxUnits - 1, 0);
      FitLengthIsCut(s, maxUnits);
      UnitsConcat(s[..n], ELLIPSIS);
      EllipsisUnits();
    }
  }

  method TruncateUTF16(s: string, maxUnits: int) returns (r: string)
    ensures r == Truncated(s, maxUnits)
  {
    if maxUnits <= 0 {
      return "";
    }
    var total := 0;
    for i := 0 to |s|
      invariant total == Units(s[..i])
    {
      NextUnits(s, i);
      total := total + if s[i] as int > 0xffff then 2 else 1;
    }
    assert s[..|s|] == s;
    if total <= maxUnits {
      return s;
    }
    var limit := maxUnits - 1;
    var units, k := 0, 0;
    r := "";
    while k < |s|
      invariant 0 <= k <= |s| && r == s[..k] && units == Units(s[..k])
      invariant FitLength(s, limit, 0) == FitLength(s, limit, k)
    {
      var runeUnits := if s[k] as int > 0xffff then 2 else 1;
      if units + runeUnits > limit {
        break;
      }
      NextUnits(s, k);
      r := r + [s[k]];
      units := units + runeUnits;
      k := k + 1;
    }
    r := r + ELLIPSIS;
  }

  // ─── Numbers ────────────────────────────────────────────────────────────────

  const DIGITS: string := "0123456789"

  function Decimal(n: nat): string {
    if n < 10 then [DIGITS[n]] else Decimal(n / 10) + [DIGITS[n % 10]]
  }

  predicate Digit(c: char) {
    '0' <= c <= '9'
  }

  /** The number a text of digits stands for. */
  function Read(s: string): nat
    requires forall c | c in s :: Digit(c)
  {
    if s == "" then 0
    else
      assert Digit(s[|s| - 1]);
      10 * Read(s[..|s| - 1]) + (s[|s| - 1] as int - '0' as int)
  }

  /** The decimal form is the one without superfluous zeros that stands for the number. */
  lemma {:induction false} DecimalReads(n: nat)
    ensures (forall c | c in Decimal(n) :: Digit(c)) && Read(Decimal(n)) == n
    ensures Decimal(n) != "" && (n > 0 ==> Decimal(n)[0] != '0')
  {
    if n < 10 {
      assert Decimal(n) == [DIGITS[n]] && Decimal(n)[..0] == "";
    } else {
      DecimalReads(n / 10);
      var init := Decimal(n / 10);
      assert Decimal(n) == init + [DIGITS[n % 10]] && Decimal(n)[..|init|] == init;
    }
  }

  function Pow10(k: nat): nat {
    if k == 0 then 1 else 10 * Pow10(k - 1)
  }

  lemma {:induction false} DecimalWidth(n: nat, k: nat)
    requires k >= 1 && n < Pow10(k)
    ensures 1 <= |Decimal(n)| <= k
  {
    if n >= 10 {
      assert k >= 2;
      DecimalWidth(n / 10, k - 1);
    }
  }

  lemma {:induction false} DecimalGrows(a: nat, b: nat)
    requires a <= b
    ensures |Decimal(a)| <= |Decimal(b)|
  {
    if b >= 10 {
      if a >= 10 {
        DecimalGrows(a / 10, b / 10);
      } else {
        DecimalGrows(0, b / 10);
      }
    }
  }

  lemma {:induction false} DecimalUnits(n: nat)
    ensures Units(Decimal(n)) == |Decimal(n)|
  {
    if n < 10 {
      assert Units(Decimal(n)) == UnitsOf(DIGITS[n]);
    } else {
      DecimalUnits(n / 10);
      assert Decimal(n)[..|Decimal(n)| - 1] == Decimal(n / 10);
    }
  }
}
