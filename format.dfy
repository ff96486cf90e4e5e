/**
 * The two display helpers of frontend/src/lib/utils.ts: `shortenAddress`
 * (built on JavaScript's `String.prototype.substring`) and `timeAgo`.
 *
 * `timeAgo` reads the clock; here the current time and the timestamp are
 * both given in milliseconds since the epoch.
 */
module Format {
  import Ledger

  /** An index argument of `substring`, clamped into `[0, n]`. */
  function Clamp(i: int, n: nat): (r: nat)
    ensures r <= n
    ensures 0 <= i <= n ==> r == i
    ensures i < 0 ==> r == 0
    ensures i > n ==> r == n
  {
    if i < 0 then 0 else if i > n then n else i
  }

  /**
   * `s.substring(start, end)`: both indices clamped to the string, and
   * swapped when the first is the larger.
   */
  function Substring(s: string, start: int, end: int): (r: string)
    ensures |r| == Ledger.Max(Clamp(start, |s|), Clamp(end, |s|)) - Ledger.Min(Clamp(start, |s|), Clamp(end, |s|))
    ensures r == s[Ledger.Min(Clamp(start, |s|), Clamp(end, |s|))..Ledger.Max(Clamp(start, |s|), Clamp(end, |s|))]
  {
    var a := Clamp(start, |s|);
    var b := Clamp(end, |s|);
    if a <= b then s[a..b] else s[b..a]
  }

  /** `substring` with both arguments in either order gives the same text. */
  lemma SubstringSymmetric(s: string, start: int, end: int)
    ensures Substring(s, start, end) == Substring(s, end, start)
  {
  }

  /** `shortenAddress(address, chars)`: the head, "...", and the tail from index `42 - chars`. */
  function ShortenAddress(address: string, chars: int := 4): (r: string)
    ensures var h := Clamp(chars + 2, |address|);
      && |r| >= h + 3
      && r[..h] == address[..h]
      && r[h..h + 3] == "..."
      && r[h + 3..] == address[Clamp(42 - chars, |address|)..]
  {
    Substring(address, 0, chars + 2) + "..." + Substring(address, 42 - chars, |address|)
  }

  /**
   * For a 42-character address (0x and forty hex digits) and `chars` from 0
   * to 40, the result is the first `chars + 2` characters, "...", and the
   * last `chars`, `2 * chars + 5` characters in all (head and tail overlap
   * once `chars` exceeds 20).
   */
  lemma ShortenFullAddress(address: string, chars: int)
    requires |address| == 42 && 0 <= chars <= 40
    ensures ShortenAddress(address, chars) == address[..chars + 2] + "..." + address[42 - chars..]
    ensures |ShortenAddress(address, chars)| == 2 * chars + 5
  {
  }

  /**
   * An input of at most `42 - chars` characters (with `chars >= -2`) has no
   * tail: the result is its head followed by "...", so "" becomes "...".
   */
  lemma ShortenShortAddress(address: string, chars: int)
    requires -2 <= chars && |address| <= 42 - chars
    ensures ShortenAddress(address, chars) == address[..Ledger.Min(chars + 2, |address|)] + "..."
  {
    assert Substring(address, 42 - chars, |address|) == [];
  }

  // ---------------------------------------------------------------------------
  // timeAgo

  /** `Math.floor((now - past) / 1000)`, the whole seconds elapsed (negative for a future timestamp). */
  function ElapsedSeconds(nowMs: int, pastMs: int): (r: int)
    ensures 1000 * r <= nowMs - pastMs < 1000 * (r + 1)
  {
    (nowMs - pastMs) / 1000
  }

  datatype TimeUnit = Seconds | Minutes | Hours | Days

  function UnitLetter(u: TimeUnit): char
  {
    match u
    case Seconds => 's'
    case Minutes => 'm'
    case Hours => 'h'
    case Days => 'd'
  }

  /** The unit of 1 count of `u`, in seconds. */
  function UnitSeconds(u: TimeUnit): nat
  {
    match u
    case Seconds => 1
    case Minutes => 60
    case Hours => 3600
    case Days => 86400
  }

  /**
   * The count and unit `timeAgo` shows: the largest unit not exceeding the
   * elapsed time (seconds below a minute, including negative ones), with the
   * count rounded down, so that a count of a larger unit is never zero and
   * stays below the next unit.
   */
  function TimeAgoParts(seconds: int): (r: (int, TimeUnit))
    ensures seconds < 60 <==> r.1 == Seconds
    ensures r.1 == Seconds ==> r.0 == seconds
    ensures r.1 != Seconds ==> UnitSeconds(r.1) * r.0 <= seconds < UnitSeconds(r.1) * (r.0 + 1)
    ensures r.1 == Minutes ==> 1 <= r.0 < 60
    ensures r.1 == Hours ==> 1 <= r.0 < 24
    ensures r.1 == Days ==> 1 <= r.0 && seconds >= 86400
  {
    if seconds < 60 then (seconds, Seconds)
    else if seconds < 3600 then (seconds / 60, Minutes)
    else if seconds < 86400 then (seconds / 3600, Hours)
    else (seconds / 86400, Days)
  }

  function DigitChar(d: nat): char
    requires d < 10
  {
    ('0' as int + d) as char
  }

  function DigitValue(c: char): nat
  {
    if '0' <= c <= '9' then (c as int - '0' as int) as nat else 0
  }

  /** The standard decimal text of a natural number: digits only, and no leading zero unless it is "0". */
  predicate IsNatText(s: string)
  {
    && |s| >= 1
    && (forall i :: 0 <= i < |s| ==> '0' <= s[i] <= '9')
    && (s[0] == '0' ==> s == "0")
  }

  /** The standard decimal text of an integer: a natural's text, or "-" and a nonzero natural's text. */
  predicate IsIntText(s: string)
  {
    || IsNatText(s)
    || (|s| >= 2 && s[0] == '-' && IsNatText(s[1..]) && s[1] != '0')
  }

  /** Decimal digits of `n`, without leading zeros. */
  function NatToString(n: nat): (r: string)
    ensures IsNatText(r)
    ensures r[0] == '0' ==> n == 0
  {
    if n < 10 then [DigitChar(n)] else NatToString(n / 10) + [DigitChar(n % 10)]
  }

  /** The value of a string of decimal digits. */
  function ParseNat(s: string): nat
  {
    if s == [] then 0 else 10 * ParseNat(s[..|s| - 1]) + DigitValue(s[|s| - 1])
  }

  lemma {:induction false} ParseNatToString(n: nat)
    ensures ParseNat(NatToString(n)) == n
  {
    var s := NatToString(n);
    if n >= 10 {
      ParseNatToString(n / 10);
      assert s[..|s| - 1] == NatToString(n / 10);
    }
  }

  /** A standard decimal text is the text of the number it reads as: no other text reads back to that number. */
  lemma {:induction false} NatTextReadsBack(s: string)
    requires IsNatText(s)
    ensures NatToString(ParseNat(s)) == s
    decreases |s|
  {
    var last := s[|s| - 1];
    assert DigitChar(DigitValue(last)) == last;
    if |s| >= 2 {
      var front := s[..|s| - 1];
      assert front[0] == s[0];
      NatTextReadsBack(front);
      var m := ParseNat(front);
      assert NatToString(m)[0] != '0';
      assert s == front + [last];
    }
  }

  /** `${n}` for an integer. */
  function IntToString(i: int): (r: string)
    ensures IsIntText(r)
    ensures r[0] == '-' <==> i < 0
  {
    if i < 0 then "-" + NatToString(-i) else NatToString(i)
  }

  function ParseInt(s: string): int
  {
    if |s| > 0 && s[0] == '-' then -(ParseNat(s[1..]) as int) else ParseNat(s)
  }

  lemma ParseIntToString(i: int)
    ensures ParseInt(IntToString(i)) == i
  {
    if i < 0 {
      ParseNatToString(-i);
      assert IntToString(i)[1..] == NatToString(-i);
    } else {
      ParseNatToString(i);
    }
  }

  /** Every standard decimal text of an integer is `${n}` for the `n` it reads as. */
  lemma IntTextReadsBack(s: string)
    requires IsIntText(s)
    ensures IntToString(ParseInt(s)) == s
  {
    if IsNatText(s) && s[0] != '-' {
      NatTextReadsBack(s);
    } else {
      NatTextReadsBack(s[1..]);
      assert NatToString(ParseNat(s[1..]))[0] != '0';
      assert s == "-" + s[1..];
    }
  }

  /** `timeAgo(timestamp)` at time `nowMs`: the count, the unit's letter, and " ago". */
  function TimeAgo(nowMs: int, pastMs: int): (r: string)
    ensures |r| >= 6 && r[|r| - 4..] == " ago"
    ensures r[|r| - 5] in {'s', 'm', 'h', 'd'}
    ensures r[0] == '-' <==> nowMs < pastMs
    ensures r[|r| - 5] == 's' <==> nowMs - pastMs < 60000
    ensures IsIntText(r[..|r| - 5])
  {
    var parts := TimeAgoParts(ElapsedSeconds(nowMs, pastMs));
    IntToString(parts.0) + [UnitLetter(parts.1)] + " ago"
  }

  /**
   * The text reads back: it ends in " ago" after the unit's letter, and what
   * precedes the letter is the standard decimal text of the count, `${count}`.
   */
  lemma TimeAgoReadsBack(nowMs: int, pastMs: int)
    ensures var s := TimeAgo(nowMs, pastMs);
      var parts := TimeAgoParts(ElapsedSeconds(nowMs, pastMs));
      && |s| >= 6
      && s[|s| - 4..] == " ago"
      && s[|s| - 5] == UnitLetter(parts.1)
      && IsIntText(s[..|s| - 5])
      && ParseInt(s[..|s| - 5]) == parts.0
  {
    var parts := TimeAgoParts(ElapsedSeconds(nowMs, pastMs));
    var s := TimeAgo(nowMs, pastMs);
    ParseIntToString(parts.0);
    assert s[..|s| - 5] == IntToString(parts.0);
  }
}
