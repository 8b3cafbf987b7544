/** The human-readable order code: three upper-case letters taken from the
    customer's name (or the fallback `CUST`), a dash, and three digits. The
    random draw is an input: `Math.floor(100 + Math.random() * 900)` is
    `100 + draw` for some `draw` in [0, 900). */
module OrderUtils {
  import opened Common

  predicate IsAsciiLetter(c: char)
  {
    ('a' <= c <= 'z') || ('A' <= c <= 'Z')
  }

  predicate IsUpperLetter(c: char)
  {
    'A' <= c <= 'Z'
  }

  predicate IsDigit(c: char)
  {
    '0' <= c <= '9'
  }

  /** `.replace(/[^a-zA-Z]/g, '')`: keep the ASCII letters, in order. (The
      preceding `.trim()` only removes characters this drops anyway.) */
  function CleanName(s: string): (r: string)
    ensures |r| <= |s|
    ensures forall i :: 0 <= i < |r| ==> IsAsciiLetter(r[i])
    ensures forall i :: 0 <= i < |s| && IsAsciiLetter(s[i]) ==> s[i] in r
  {
    if s == [] then []
    else if IsAsciiLetter(s[0]) then [s[0]] + CleanName(s[1..])
    else CleanName(s[1..])
  }

  /** A single character is kept exactly when it is an ASCII letter; with
      CleanNameAppend this pins cleaning down on every string. */
  lemma CleanNameSingle(c: char)
    ensures CleanName([c]) == if IsAsciiLetter(c) then [c] else []
  {
    assert [c][1..] == [];
  }

  /** `idx` places each character of `r` at a strictly later position of
      `s`, and every letter of `s` from position `from` on is placed. */
  ghost predicate LettersAt(r: string, s: string, idx: seq<nat>, from: nat)
  {
    && |idx| == |r|
    && (forall k :: 0 <= k < |idx| ==> from <= idx[k] < |s| && r[k] == s[idx[k]])
    && (forall k1, k2 :: 0 <= k1 < k2 < |idx| ==> idx[k1] < idx[k2])
    && (forall i :: from <= i < |s| && IsAsciiLetter(s[i]) ==> i in idx)
  }

  /** The cleaned name is the input's letters in their order: character `k`
      is the input's character `idx[k]`, the indices strictly increase, and
      every letter of the input is among them. */
  lemma {:induction false} CleanNameInOrder(s: string) returns (idx: seq<nat>)
    ensures LettersAt(CleanName(s), s, idx, 0)
  {
    if s == [] {
      idx := [];
    } else {
      var rest := CleanName(s[1..]);
      var before := CleanNameInOrder(s[1..]);
      var shifted := ShiftIndices(rest, s, before);
      if IsAsciiLetter(s[0]) {
        idx := PrependIndex(rest, s, shifted);
      } else {
        idx := shifted;
      }
    }
  }

  /** Indices into the tail of `s`, moved one place right, index the same
      characters of `s` itself. */
  lemma ShiftIndices(r: string, s: string, before: seq<nat>) returns (shifted: seq<nat>)
    requires s != [] && LettersAt(r, s[1..], before, 0)
    ensures LettersAt(r, s, shifted, 1)
  {
    var tail := s[1..];
    shifted := seq(|before|, k requires 0 <= k < |before| => before[k] + 1);
    forall k | 0 <= k < |shifted|
      ensures 1 <= shifted[k] < |s| && r[k] == s[shifted[k]]
    {
      assert tail[before[k]] == s[before[k] + 1];
    }
    forall k1, k2 | 0 <= k1 < k2 < |shifted|
      ensures shifted[k1] < shifted[k2]
    {
      assert before[k1] < before[k2];
    }
    forall i | 1 <= i < |s| && IsAsciiLetter(s[i])
      ensures i in shifted
    {
      assert tail[i - 1] == s[i];
      var k :| 0 <= k < |before| && before[k] == i - 1;
      assert shifted[k] == i;
    }
  }

  /** A letter in front of the indexed characters is indexed by 0. */
  lemma PrependIndex(r: string, s: string, shifted: seq<nat>) returns (idx: seq<nat>)
    requires s != [] && LettersAt(r, s, shifted, 1)
    ensures LettersAt([s[0]] + r, s, idx, 0)
  {
    idx := [0] + shifted;
    assert forall k :: 1 <= k < |idx| ==> idx[k] == shifted[k - 1];
  }

  /** Each ASCII letter occurs in the cleaned name as often as in the input,
      and nothing else occurs in it. */
  lemma {:induction false} CleanNameCount(s: string, c: char)
    ensures multiset(CleanName(s))[c] == if IsAsciiLetter(c) then multiset(s)[c] else 0
  {
    if s != [] {
      CleanNameCount(s[1..], c);
      assert s == [s[0]] + s[1..];
    }
  }

  /** Cleaning distributes over concatenation. */
  lemma {:induction false} CleanNameAppend(a: string, b: string)
    ensures CleanName(a + b) == CleanName(a) + CleanName(b)
  {
    if a != [] {
      assert (a + b)[1..] == a[1..] + b;
      CleanNameAppend(a[1..], b);
    } else {
      assert a + b == b;
    }
  }

  /** A name that is already clean is left alone, so cleaning twice is
      cleaning once. */
  lemma {:induction false} CleanNameIdempotent(s: string)
    ensures CleanName(CleanName(s)) == CleanName(s)
  {
    if s != [] {
      CleanNameIdempotent(s[1..]);
      if IsAsciiLetter(s[0]) {
        assert ([s[0]] + CleanName(s[1..]))[1..] == CleanName(s[1..]);
      }
    }
  }

  /** `toUpperCase` on an ASCII letter. */
  function ToUpper(c: char): (u: char)
    requires IsAsciiLetter(c)
    ensures IsUpperLetter(u)
    ensures IsUpperLetter(c) ==> u == c
  {
    if 'a' <= c <= 'z' then (c as int - 'a' as int + 'A' as int) as char else c
  }

  /** The three-character (or `CUST`) prefix: `name ? ... : ''`, then the
      first three letters upper-cased when there are at least three. */
  function Prefix(name: Option<string>): (p: string)
    ensures |p| == 3 || p == "CUST"
    ensures forall i :: 0 <= i < |p| ==> IsUpperLetter(p[i])
    ensures name.None? ==> p == "CUST"
    ensures name.Some? && |CleanName(name.value)| < 3 ==> p == "CUST"
    ensures name.Some? && |CleanName(name.value)| >= 3 ==>
      |p| == 3 && forall i :: 0 <= i < 3 ==> p[i] == ToUpper(CleanName(name.value)[i])
  {
    var clean := if name.Some? then CleanName(name.value) else "";
    if |clean| >= 3 then [ToUpper(clean[0]), ToUpper(clean[1]), ToUpper(clean[2])] else "CUST"
  }

  function DigitChar(d: int): (c: char)
    requires 0 <= d <= 9
    ensures IsDigit(c)
  {
    ('0' as int + d) as char
  }

  /** The decimal rendering of a three-digit number. */
  function ThreeDigits(n: int): (s: string)
    requires 100 <= n <= 999
    ensures |s| == 3
    ensures forall i :: 0 <= i < 3 ==> IsDigit(s[i])
    ensures s[0] != '0'
  {
    [DigitChar(n / 100), DigitChar(n / 10 % 10), DigitChar(n % 10)]
  }

  /** Reads back a string of decimal digits. */
  function ParseDecimal(s: string): int
    requires forall i :: 0 <= i < |s| ==> IsDigit(s[i])
  {
    if s == [] then 0 else ParseDecimal(s[..|s| - 1]) * 10 + (s[|s| - 1] as int - '0' as int)
  }

  /** The code matches `^[A-Z]{3}-\d{3}$` or `^CUST-\d{3}$`. */
  predicate WellFormedCode(code: string)
  {
    && (|code| == 7 || (|code| == 8 && code[..4] == "CUST"))
    && (forall i :: 0 <= i < |code| - 4 ==> IsUpperLetter(code[i]))
    && code[|code| - 4] == '-'
    && (forall i :: |code| - 3 <= i < |code| ==> IsDigit(code[i]))
  }

  /** generateOrderCode(name), with `draw` standing for `Math.floor(Math.random() * 900)`.
      The suffix reads back as `100 + draw`, so it is always in [100, 999]. */
  function GenerateOrderCode(name: Option<string>, draw: int): (code: string)
    requires 0 <= draw < 900
    ensures WellFormedCode(code)
    ensures code == Prefix(name) + "-" + code[|code| - 3..]
    ensures |code| == |Prefix(name)| + 4
    ensures ParseDecimal(code[|code| - 3..]) == 100 + draw
  {
    var digits := ThreeDigits(100 + draw);
    ThreeDigitsRoundTrip(100 + draw);
    var code := Prefix(name) + "-" + digits;
    assert code[|code| - 3..] == digits;
    code
  }

  /** Rendering three digits and reading them back gives the number again. */
  lemma ThreeDigitsRoundTrip(n: int)
    requires 100 <= n <= 999
    ensures ParseDecimal(ThreeDigits(n)) == n
  {
    var s := ThreeDigits(n);
    assert s[..2][..1] == [s[0]];
    assert s[..2] == [s[0], s[1]];
    assert ParseDecimal([s[0]]) == n / 100 by {
      assert [s[0]][..0] == [];
    }
  }
}
